/** What single calls of `grants.py` lead to, and how the parts of an operation fit together. */
module Calls {
  import opened Names
  import opened Wrappers
  import opened Protocol
  import opened Invariant
  import opened Frames
  import opened SectionSteps
  import opened Preservation
  import opened Isolation
  import opened Lifecycle
  import opened Convergence
  import opened Traces
  import opened Hush
  import opened Moments

  // ---- lemmas about single calls ---------------------------------------------------------------

  /** Token `acc` of `g` lives until `until` at least, or has run out. */
  predicate Lasts(w: World, acc: Accessor, g: GrantId, until: real) {
    && acc in w.tokenLog && w.tokenLog[acc].tag == g && w.tokenLog[acc].end >= until
    && (acc in w.tokens || w.clock >= w.tokenLog[acc].end)
  }

  lemma LastsOn(w: World, m: World, acc: Accessor, g: GrantId, until: real)
    requires Lasts(w, acc, g, until) && ResourcesSpared(w, m, g) && Onward(w, m)
    ensures Lasts(m, acc, g, until)
  {
    assert acc in w.tokens ==> acc in TokensOf(w, g);
  }

  lemma ResourcesSparedIfSame(w: World, m: World, n: World, g: GrantId)
    requires m == w.(store := m.store, threads := m.threads) && ResourcesSpared(m, n, g)
    ensures ResourcesSpared(w, n, g)
  {
    assert TokensOf(m, g) == TokensOf(w, g) && LeasesOf(m, g) == LeasesOf(w, g) && AccountsOf(m, g) == AccountsOf(w, g);
  }

  lemma NobodyElse(w0: World, w1: World, w2: World, w3: World, t: Tid)
    requires t !in w0.threads && w1.threads - {t} == w0.threads - {t} && w2.threads - {t} == w1.threads - {t}
    requires w3.threads - {t} == w2.threads - {t} && t !in w3.threads
    ensures w3.threads == w0.threads
  {
    assert w0.threads - {t} == w0.threads && w3.threads - {t} == w3.threads;
  }

  lemma ReconcileEnds(w0: World, w1: World, w2: World, w3: World, g: GrantId, clean: bool)
    requires Aged(w0, w1) && Aged(w2, w3) && Onward(w1, w2) && g in w1.store && g in w2.store
    requires if !NeedsWorkIn(w1, g) then Aged(w1, w2) else clean ==> Served(w1, w2, g)
    ensures clean ==> ServedSince(w0, w3, g) || (Spared(w0, w3, g) && !NeedsWorkIn(w0, g))
  {
    if !NeedsWorkIn(w1, g) {
      AgedOn(w1, w2, w3);
      AgedOn(w0, w1, w3);
      NotCalledForBefore(w0, w1, g);
    } else if clean {
      assert Spared(w0, w1, g);
      FinalStays(w1.store[g], w1.clock, w3.clock);
      ServedStays(w1, w2, w3, g);
    }
  }

  /** What happens under the lock, seen from outside. */
  lemma Enclosed(w0: World, w1: World, w2: World, w3: World, g: GrantId)
    requires Aged(w0, w1) && OthersSpared(w1, w2, g) && Aged(w2, w3)
    ensures OthersSpared(w0, w3, g)
  {
    OthersSparedOn(w0, w1, w2, g);
    OthersSparedOn(w0, w2, w3, g);
  }

  lemma NotCalledForBefore(w0: World, w1: World, g: GrantId)
    requires Spared(w0, w1, g) && Onward(w0, w1) && !NeedsWorkIn(w1, g)
    ensures !NeedsWorkIn(w0, g)
  {
    if NeedsWorkIn(w0, g) {
      FinalStays(w0.store[g], w0.clock, w1.clock);
    }
  }

  lemma VisitEnds(w1: World, w2: World, w3: World, g: GrantId, due: bool, tried: bool, clean: bool)
    requires (tried <==> due) && Idle(w3) && OthersSpared(w1, w2, g) && Aged(w2, w3)
    requires !tried ==> w2 == w1
    requires tried && clean && g in w1.store ==> ServedSince(w1, w2, g) || !NeedsWorkIn(w1, g)
    ensures Visited(w1, w3, g, due, tried, clean)
  {
    AgedSparesOthers(w2, w3, g);
    OthersSparedOn(w1, w2, w3, g);
    if tried && clean && NeedsWorkIn(w1, g) {
      FinalStays(w1.store[g], w1.clock, w2.clock);
      ServedStays(w1, w2, w3, g);
    }
  }

  function NewRow(th: Thread): Row
    requires th.op.Issue?
  {
    Row(th.db, th.op.ttl, Issuing, None, None, None, None)
  }

  lemma InsertResult(w: World, t: Tid, stored: bool)
    requires Reachable(w) && t in w.threads && w.threads[t].op.Issue? && w.threads[t].pc.Inserting?
    ensures var next := Next(w, InsertRow(t, stored));
            && next.Some?
            && var m, ok := next.value, stored && w.threads[t].g !in w.store;
            && Inv(m) && Acted(w, m, t) && m.threads[t].pc == (if ok then WritingRole else Leaving(false))
            && (if ok then m.store[w.threads[t].g] == NewRow(w.threads[t]) && Own(m, m.threads[t])
                else m == Goto(w, t, Leaving(false)))
  {
    ReachableInv(w);
    var m := Next(w, InsertRow(t, stored)).value;
    KeepActing(w, InsertRow(t, stored), m);
  }

  lemma NothingInserted(w: World, m: World, n: World, t: Tid, quiet: bool)
    requires t in w.threads && m == Goto(w, t, Leaving(false)) && (quiet ==> Aged(m, n))
    ensures quiet ==> Aged(w, n)
  {
    AgedIfSame(w, m);
    if quiet {
      AgedOn(w, m, n);
    }
  }

  /** Every account the first search found has a valid name. */
  lemma FoundNameIsValid(w: World, t: Tid, account: Account)
    requires Reachable(w) && t in w.threads && w.threads[t].pc.LockingOut? && account in w.threads[t].pc.accounts
    ensures ValidAccount(NameOf(account)) && account.grant == w.threads[t].g
  {
    ReachableInv(w);
    assert ThreadInv(w, w.threads[t]);
    ProperIsValid(w.threads[t].g, w.threads[t].pc.accounts, account);
  }

  lemma RevokeLeaseResult(w: World, t: Tid, cred: LeaseId, o: Outcome)
    requires t in w.threads && w.threads[t].pc.RevokingLeases? && cred in w.threads[t].pc.leases
    ensures var next, pc := Next(w, Event.RevokeLease(t, cred, o)), w.threads[t].pc;
            && next.Some? && t in next.value.threads && next.value.store == w.store
            && next.value.threads[t].pc == if o.Done? then LeasePc(pc.td, pc.leases - {cred}) else Failing
  {
  }

  lemma LockOutResult(w: World, t: Tid, account: Account, ok: bool)
    requires t in w.threads && w.threads[t].pc.LockingOut? && account in w.threads[t].pc.accounts
    requires ValidAccount(NameOf(account))
    ensures var pc := w.threads[t].pc;
            Next(w, LockOut(t, account, ok))
            == Some(Goto(w, t, if ok then LockOutPc(pc.td, pc.accounts - {account}) else Failing))
  {
  }

  /** The first search finds the accounts of the grant. */
  lemma FindResult(w: World, t: Tid, ok: bool)
    requires Reachable(w) && t in w.threads && w.threads[t].pc.Finding? && Own(w, w.threads[t])
    ensures var found := Found(w, w.threads[t].db, w.threads[t].g);
            && found == AccountsOf(w, w.threads[t].g)
            && Next(w, FindAccounts(t, ok)) == Some(Goto(w, t, if ok then LockOutPc(w.threads[t].pc.td, found) else Failing))
  {
    ReachableInv(w);
    FoundIsOwn(w, w.threads[t].db, w.threads[t].g);
  }

  /** The last search finds no account, since every account found before was dropped. */
  lemma ConfirmResult(w: World, t: Tid, ok: bool)
    requires Reachable(w) && t in w.threads && w.threads[t].pc.Confirming?
    ensures var next, td := Next(w, Confirm(t, ok)), w.threads[t].pc.td;
            next == Some(Goto(w, t, if ok then TokenPc(td.final, td.accs) else Failing))
  {
    ReachableInv(w);
    assert ThreadInv(w, w.threads[t]);
    FoundIsOwn(w, w.threads[t].db, w.threads[t].g);
  }

  /** The closing write, which only a teardown that left nothing reaches. */
  lemma FinishResult(w: World, t: Tid, ok: bool, audited: bool)
    requires Reachable(w) && t in w.threads && w.threads[t].pc.Finishing?
    ensures var next := Next(w, Finish(t, ok, audited));
            && next.Some? && t in next.value.threads && Own(w, w.threads[t]) && Own(next.value, next.value.threads[t])
            && var m, th := next.value, w.threads[t];
            && Gone(m, th.g)
            && m.threads[t].pc == Leaving(ok && audited && !th.op.Issue?)
            && m.store[th.g] == (if ok then w.store[th.g].(status := th.pc.final) else w.store[th.g])
  {
    ReachableInv(w);
    assert ThreadInv(w, w.threads[t]);
    var m := Next(w, Finish(t, ok, audited)).value;
    StillGone(w, m, w.threads[t].g);
  }

  lemma ClosedStays(m: World, w: World, t: Tid)
    requires Undisturbed(m, w, t) && Gone(m, m.threads[t].g)
    ensures Gone(w, w.threads[t].g) && SameRow(m, w, w.threads[t].g) && w.threads[t] == m.threads[t]
  {
    GoneStays(m, w, m.threads[t].g);
  }

  lemma StillGone(w: World, m: World, g: GrantId)
    requires Gone(w, g) && m == w.(store := m.store, threads := m.threads)
    ensures Gone(m, g)
  {
  }

  lemma AccountsInDb(w: World, t: Tid)
    requires Reachable(w) && t in w.threads && Own(w, w.threads[t])
    ensures forall x :: x in AccountsOf(w, w.threads[t].g) ==> x.db == w.threads[t].db
  {
    ReachableInv(w);
    assert GrantInv(w, w.threads[t].g);
  }

  lemma NothingToCollideWith(w: World, t: Tid)
    requires Reachable(w) && t in w.threads && w.threads[t].pc.ReadingCreds?
    ensures w.threads[t].op.Issue? && w.threads[t].op.ttl >= TTL_MIN && w.threads[t].g in w.roles
    ensures forall x :: x in w.accounts ==> x.grant != w.threads[t].g
  {
    ReachableInv(w);
    assert ThreadInv(w, w.threads[t]);
    forall x | x in w.accounts ensures x.grant != w.threads[t].g {
      assert x !in AccountsOf(w, w.threads[t].g);
    }
  }

  lemma CanReadCreds(w: World, t: Tid, o: Outcome, audited: bool, cred: LeaseId, random: string, duration: nat)
    requires Reachable(w) && t in w.threads && w.threads[t].pc.ReadingCreds? && w.threads[t].op.Issue?
    requires cred !in w.leaseLog && IsSuffix(random) && 0 < duration <= w.threads[t].op.ttl
    requires w.threads[t].pc.acc in w.tokens || o.Rejected?
    ensures var next := Next(w, ReadCreds(t, o, audited, cred, random, duration));
            && next.Some? && t in next.value.threads
            && next.value.threads[t].pc == (if o.Done? then Activating(cred) else Abandon(audited))
            && next.value.store == w.store
  {
    ReachableInv(w);
    NothingToCollideWith(w, t);
    assert Account(w.roles[w.threads[t].g], w.threads[t].g, random) !in w.accounts;
  }


  // ---- one reconciliation ------------------------------------------------------------------------

  /** Since the trace had length `n`, `t` read the row of `g` under the lock; and if it needed work then,
    * some time later in the run it was ended as was right for it, with nothing of the grant left. */
  ghost predicate Attended(start: World, trace: seq<Event>, n: nat, t: Tid, g: GrantId) {
    exists j, k :: n <= j < k <= |trace| && trace[j] == Reread(t, true)
                   && Run(start, trace[..j]).Some? && Run(start, trace[..k]).Some?
                   && Mended(Run(start, trace[..j]).value, Run(start, trace[..k]).value, g)
  }

  predicate Mended(w0: World, w: World, g: GrantId) {
    NeedsWorkIn(w0, g) ==> Served(w0, w, g)
  }

  /** ... or somebody held the lock until `t` gave up. */
  ghost predicate SeenTo(start: World, trace: seq<Event>, n: nat, t: Tid, g: GrantId) {
    Attended(start, trace, n, t, g) || exists db :: Refused(start, trace, n, t, db)
  }

  lemma AttendedHere(start: World, b: Moment, c: Moment, d: seq<Event>, n: nat, t: Tid, g: GrantId)
    requires Run(start, b.trace) == Some(b.w) && Run(start, c.trace) == Some(c.w) && n <= |b.trace|
    requires b.trace + [Reread(t, true)] <= c.trace <= d && Mended(b.w, c.w, g)
    ensures SeenTo(start, d, n, t, g)
  {
    var j, k := |b.trace|, |c.trace|;
    assert d[j] == (b.trace + [Reread(t, true)])[j];
    assert d[..j] == b.trace && d[..k] == c.trace;
  }

  lemma SeenToOn(start: World, a: seq<Event>, b: seq<Event>, n: nat, t: Tid, g: GrantId)
    requires SeenTo(start, a, n, t, g) && a <= b
    ensures SeenTo(start, b, n, t, g)
  {
    if Attended(start, a, n, t, g) {
      var j, k :| n <= j < k <= |a| && a[j] == Reread(t, true)
                  && Run(start, a[..j]).Some? && Run(start, a[..k]).Some?
                  && Mended(Run(start, a[..j]).value, Run(start, a[..k]).value, g);
      assert b[j] == a[j] && b[..j] == a[..j] && b[..k] == a[..k];
    } else {
      var db :| Refused(start, a, n, t, db);
      RefusedOn(start, a, b, n, n, t, db);
    }
  }

  /** Each of the grants was seen to. */
  ghost predicate AllSeenTo(start: World, trace: seq<Event>, n: nat, t: Tid, grants: set<GrantId>) {
    forall g :: g in grants ==> SeenTo(start, trace, n, t, g)
  }

  lemma AllSeenToOn(start: World, a: seq<Event>, b: seq<Event>, n: nat, t: Tid, grants: set<GrantId>, more: set<GrantId>)
    requires AllSeenTo(start, a, n, t, grants) && a <= b && n <= |a|
    requires forall g :: g in more ==> SeenTo(start, b, |a|, t, g)
    ensures AllSeenTo(start, b, n, t, grants + more)
  {
    forall g | g in grants ensures SeenTo(start, b, n, t, g) {
      SeenToOn(start, a, b, n, t, g);
    }
    forall g | g in more ensures SeenTo(start, b, n, t, g) {
      SeenToFrom(start, b, |a|, n, t, g);
    }
  }

  lemma SeenToFrom(start: World, a: seq<Event>, n: nat, m: nat, t: Tid, g: GrantId)
    requires SeenTo(start, a, n, t, g) && m <= n
    ensures SeenTo(start, a, m, t, g)
  {
    if Attended(start, a, n, t, g) {
      var j, k :| n <= j < k <= |a| && a[j] == Reread(t, true)
                  && Run(start, a[..j]).Some? && Run(start, a[..k]).Some?
                  && Mended(Run(start, a[..j]).value, Run(start, a[..k]).value, g);
      assert Attended(start, a, m, t, g);
    } else {
      var db :| Refused(start, a, n, t, db);
      RefusedOn(start, a, a, n, m, t, db);
    }
  }

  // ---- a sweep of the reconciler ----------------------------------------------------------------

  /** The sweep as far as the rows in `done`, with the starts the run has recorded. */
  ghost predicate SweptSoFar(start: World, a: Moment, b: Moment, t: Tid, done: set<GrantId>, s: Sweep, quiet: bool) {
    && RowsStay(a.w, b.w) && a.faults <= b.faults && a.trace <= b.trace
    && InFlight(start, b.trace, |a.trace|, s.skipped) && AllSeenTo(start, b.trace, |a.trace|, t, s.clean)
    && SweepSoFar(a.w, b.w, done, s, Begun(b.trace, |a.trace|, t), b.faults - a.faults, quiet)
  }

  lemma SweptOn(start: World, a: Moment, b: Moment, c: Moment, t: Tid, done: set<GrantId>, s: Sweep, g: GrantId,
                due: bool, tried: bool, quiet: bool)
    returns (next: Sweep)
    requires Run(start, b.trace) == Some(b.w) && (due && !tried ==> g in b.w.inflight)
    requires SweptSoFar(start, a, b, t, done, s, quiet) && g !in done && g in a.w.store && due == NeedsWorkIn(a.w, g)
    requires RowsStay(b.w, c.w) && b.faults <= c.faults && b.trace <= c.trace && (tried ==> due)
    requires quiet && Idle(b.w) ==> Visited(b.w, c.w, g, due, tried, c.faults == b.faults)
    requires Begun(c.trace, |b.trace|, t) <= if tried then {g} else {}
    requires tried && c.faults == b.faults && g in b.w.store ==>
               Begun(c.trace, |b.trace|, t) == {g} && SeenTo(start, c.trace, |b.trace|, t, g)
    ensures SweptSoFar(start, a, c, t, done + {g}, next, quiet)
  {
    BegunOn(b.trace, c.trace, |a.trace|, t);
    if due && !tried {
      OneMoreFlew(start, b.trace, c.trace, |a.trace|, s.skipped, b.w, g);
    } else {
      InFlightOn(start, b.trace, c.trace, |a.trace|, s.skipped);
    }
    AllSeenToOn(start, b.trace, c.trace, |a.trace|, t, s.clean, if tried && c.faults == b.faults then {g} else {});
    next := SweepOn(a.w, b.w, c.w, done, s, Begun(b.trace, |a.trace|, t), Begun(c.trace, |b.trace|, t),
                    b.faults - a.faults, g, due, tried, c.faults - b.faults, quiet);
  }

  ghost predicate Leaves(a: Moment, b: Moment) {
    RowsStay(a.w, b.w) && Onward(a.w, b.w) && a.faults <= b.faults && a.trace <= b.trace
  }

  /** A revoke that worked under the lock and left. */
  lemma RevokeLeaves(b: Moment, c: Moment, d: Moment, start: World, t: Tid, g: GrantId, at: World, ok: bool, quiet: bool)
    requires Continues(b, c, t, quiet) && Roams(c, d, t, quiet) && c.w.threads[t].g == g
    requires ok ==> Settled(c.w, g) && Silences(b, c, start, t, g, at)
    ensures Leaves(b, d) && (ok ==> Settled(d.w, g) && Silences(b, d, start, t, g, at))
    ensures quiet ==> OthersSpared(b.w, d.w, g) && Spared(c.w, d.w, g)
  {
    OnwardOn(b.w, c.w, d.w);
    if ok {
      SilencesOn(b, c, d, start, t, g, at);
    }
    if quiet {
      AgedSparesOthers(c.w, d.w, g);
      OthersSparedOn(b.w, c.w, d.w, g);
    }
  }

  /** ... seen from outside, with its beginning. */
  lemma RevokeEnds(a: Moment, b: Moment, d: Moment, start: World, t: Tid, g: GrantId, at: World, ok: bool, quiet: bool)
    requires Wanders(a, b, t, quiet) && a.trace <= b.trace && (quiet ==> OthersSpared(b.w, d.w, g))
    requires ok ==> ResourcesSpared(b.w, at, g) && Silences(b, d, start, t, g, at)
    ensures ok ==> Silences(a, d, start, t, g, at)
    ensures quiet ==> OthersSpared(a.w, d.w, g)
    ensures quiet && ok ==> ResourcesSpared(a.w, at, g)
  {
    if ok {
      SilencesFrom(a, b, d, start, t, g, at);
    }
    if quiet {
      AgedSparesOthers(a.w, b.w, g);
      OthersSparedOn(a.w, b.w, d.w, g);
      assert Spared(a.w, b.w, g);
      if ok {
        ResourcesSparedOn(a.w, b.w, at, g);
      }
    }
  }

  /** What a sweep has done when it is over. */
  ghost predicate Swept(start: World, a: Moment, b: Moment, t: Tid, s: Sweep, quiet: bool) {
    && RowsStay(a.w, b.w) && a.faults <= b.faults && a.trace <= b.trace
    && InFlight(start, b.trace, |a.trace|, s.skipped) && AllSeenTo(start, b.trace, |a.trace|, t, s.clean)
    && SweepDone(a.w, b.w, s, Begun(b.trace, |a.trace|, t), b.faults - a.faults, quiet)
  }

  lemma NothingSwept(start: World, a: Moment, t: Tid, quiet: bool) returns (s: Sweep)
    ensures SweptSoFar(start, a, a, t, {}, s, quiet)
  {
    s := Sweep({}, {}, {});
    StartsEmpty(a.w, quiet);
    assert Begun(a.trace, |a.trace|, t) == {};
  }

  lemma SweptAll(start: World, a: Moment, b: Moment, t: Tid, all: set<GrantId>, s: Sweep, quiet: bool)
    requires Inv(b.w) && SweptSoFar(start, a, b, t, all, s, quiet)
    requires all == set g | g in a.w.store && !Terminal(a.w.store[g].status)
    ensures Swept(start, a, b, t, s, quiet)
  {
    SweepEnds(a.w, b.w, all, s, Begun(b.trace, |a.trace|, t), b.faults - a.faults, quiet);
  }

  // ---- what an issue leaves ----------------------------------------------------------------------

  predicate RowAsked(w: World, g: GrantId, db: Db, ttl: int) {
    g in w.store && w.store[g].db == db && w.store[g].ttl == ttl
  }

  /** An active grant is what was asked for: its account is in that database, its lease and its stored
    * expiry are no longer than the lifetime, and its token lasts for the lifetime and the grace. */
  predicate AsAsked(w: World, g: GrantId, db: Db, ttl: int)
    requires g in w.store && ActiveRow(w, g)
  {
    var row := w.store[g];
    var lease, token := w.leaseLog[row.lease.value], w.tokenLog[row.accessor.value];
    && RowAsked(w, g, db, ttl) && (g in w.roles ==> w.roles[g] == db)
    && lease.account.db == db && lease.end <= lease.issued + ttl as real
    && row.expires.value <= w.clock + ttl as real
    && token.end == token.created + (ttl + TOKEN_GRACE) as real
  }

  lemma IsAsAsked(w: World, g: GrantId, db: Db, ttl: int)
    requires Inv(w) && RowAsked(w, g, db, ttl) && ActiveRow(w, g)
    ensures AsAsked(w, g, db, ttl)
  {
    var row := w.store[g];
    assert GrantInv(w, g) && LeaseInv(w, row.lease.value) && TokenInv(w, row.accessor.value);
  }

  predicate CompleteFor(w: World, g: GrantId, db: Db, ttl: int) {
    g in w.store && w.store[g].status.Active? && ActiveRow(w, g) && AsAsked(w, g, db, ttl)
  }

  /** At some point since the trace had length `n` the grant was active and complete as asked for. */
  ghost predicate WasActive(start: World, trace: seq<Event>, n: nat, g: GrantId, db: Db, ttl: int) {
    exists k :: n <= k <= |trace| && Run(start, trace[..k]).Some? && CompleteFor(Run(start, trace[..k]).value, g, db, ttl)
  }

  lemma WasActiveHere(start: World, c: Moment, d: seq<Event>, n: nat, g: GrantId, db: Db, ttl: int)
    requires Run(start, c.trace) == Some(c.w) && n <= |c.trace| && c.trace <= d && CompleteFor(c.w, g, db, ttl)
    ensures WasActive(start, d, n, g, db, ttl)
  {
    assert d[..|c.trace|] == c.trace;
  }

  /** What became of the row that an issue of `t` inserted between `a` and `b`. Without a teardown (`tear` is
    * `None`) it is active and complete, or still `issuing` because the audit write of the error handler
    * failed; otherwise a teardown that began at `from` made of the `issuing` row what `Ended` says. */
  ghost predicate Issued(a: Moment, b: Moment, t: Tid, ok: bool, from: Moment, tear: Option<Fate>) {
    && t in b.w.threads && b.w.threads[t].op.Issue?
    && var g := b.w.threads[t].g;
    && RowAsked(b.w, g, b.w.threads[t].db, b.w.threads[t].op.ttl)
    && (ok ==> tear.None? && b.w.store[g].status.Active?)
    && match tear
       case None =>
         || (b.w.store[g].status.Active? && ActiveRow(b.w, g) && (!ok ==> a.faults < b.faults))
         || (b.w.store[g].status.Issuing? && a.faults < b.faults && HandlerRaised(b.trace, |a.trace|, t))
       case Some(fate) =>
         && a.faults <= from.faults && a.trace <= from.trace
         && g in from.w.store && from.w.store[g].status.Issuing? && Ended(from, b, t, g, Failed, fate)
  }

  /** An issue, seen from its beginning (`a` to `b`) to its end (`c` to `d`). */
  lemma IssueSeen(a: Moment, b: Moment, c: Moment, d: Moment, t: Tid, g: GrantId, db: Db, ttl: int, quiet: bool,
                  ok: bool, inserted: bool, from: Moment, tear: Option<Fate>)
    requires Wanders(a, b, t, quiet) && Continues(b, c, t, quiet) && Roams(c, d, t, quiet) && Inv(c.w) && Inv(d.w)
    requires b.w.threads[t] == Thread(Issue(ttl), g, db, Inserting) && (ok ==> inserted)
    requires inserted ==> g !in b.w.store && Issued(b, c, t, ok, from, tear)
    requires !inserted && quiet ==> Aged(b.w, c.w)
    ensures ok ==> g !in a.w.store && RowAsked(d.w, g, db, ttl) && CompleteFor(c.w, g, db, ttl)
    ensures quiet ==> OthersSpared(a.w, d.w, g) && (g !in a.w.store && g in d.w.store ==> RowAsked(d.w, g, db, ttl))
    ensures quiet && ok ==> CompleteFor(d.w, g, db, ttl)
    ensures quiet && g !in a.w.store ==> g !in b.w.store
    ensures quiet && g in c.w.store && c.w.store[g].status.Failed? && Gone(c.w, g) ==>
              g in d.w.store && d.w.store[g].status.Failed? && Gone(d.w, g)
  {
    if ok {
      IsAsAsked(c.w, g, db, ttl);
    }
    if quiet {
      Enclosed(a.w, b.w, c.w, d.w, g);
      assert Spared(a.w, b.w, g) && Spared(c.w, d.w, g);
      IssueKept(c.w, d.w, g, db, ttl, ok);
      assert !inserted ==> Spared(b.w, c.w, g);
    }
  }

  lemma IssueKept(w: World, m: World, g: GrantId, db: Db, ttl: int, ok: bool)
    requires Inv(m) && Spared(w, m, g) && (ok ==> CompleteFor(w, g, db, ttl))
    ensures ok ==> CompleteFor(m, g, db, ttl)
    ensures Gone(w, g) ==> Gone(m, g)
  {
    if ok {
      assert GrantInv(m, g);
      IsAsAsked(m, g, db, ttl);
    }
    if Gone(w, g) {
      GoneStays(w, m, g);
    }
  }
}
