/** Theorems about every run of the grant lifecycle. */
module Lifecycle {
  import opened Names
  import opened Wrappers
  import opened Protocol
  import opened Invariant
  import opened Frames
  import opened SectionSteps
  import opened Preservation
  import opened Isolation

  // ---- nothing leaks -------------------------------------------------------------------------

  /** A row of the store accounts for `g` and is not closed. */
  predicate Tracked(w: World, g: GrantId) {
    g in w.store && !Terminal(w.store[g].status)
  }

  lemma NoLeak(w: World)
    requires Reachable(w)
    ensures forall g :: g in w.roles ==> Tracked(w, g)
    ensures forall a :: a in w.tokens ==> a in w.tokenLog && Tracked(w, w.tokenLog[a].tag)
    ensures forall l :: l in w.leases ==> l in w.leaseLog && Tracked(w, w.leaseLog[l].role)
    ensures forall x :: x in w.accounts ==> Tracked(w, x.grant) && ValidAccount(NameOf(x))
  {
    ReachableInv(w);
    forall g | g in w.roles ensures Tracked(w, g) {
      assert GrantInv(w, g);
    }
    forall a | a in w.tokens ensures a in w.tokenLog && Tracked(w, w.tokenLog[a].tag) {
      assert GrantInv(w, w.tokenLog[a].tag) && a in TokensOf(w, w.tokenLog[a].tag);
    }
    forall l | l in w.leases ensures l in w.leaseLog && Tracked(w, w.leaseLog[l].role) {
      assert GrantInv(w, w.leaseLog[l].role) && l in LeasesOf(w, w.leaseLog[l].role);
    }
    forall x | x in w.accounts ensures Tracked(w, x.grant) && ValidAccount(NameOf(x)) {
      assert GrantInv(w, x.grant) && x in AccountsOf(w, x.grant);
      UsernameIsValid(x.grant, x.random);
    }
  }

  /** Whatever is left of a grant, its Vault role is still there, and names the database that holds
    * the accounts: the revocation statements of its leases can always run. */
  lemma RoleOutlives(w: World)
    requires Reachable(w)
    ensures forall a :: a in w.tokens ==> a in w.tokenLog && w.tokenLog[a].tag in w.roles
    ensures forall l :: l in w.leases ==> l in w.leaseLog && w.leaseLog[l].role in w.roles
    ensures forall x :: x in w.accounts ==> x.grant in w.roles && w.roles[x.grant] == x.db
  {
    ReachableInv(w);
    forall a | a in w.tokens ensures a in w.tokenLog && w.tokenLog[a].tag in w.roles {
      assert GrantInv(w, w.tokenLog[a].tag) && a in TokensOf(w, w.tokenLog[a].tag);
    }
    forall l | l in w.leases ensures l in w.leaseLog && w.leaseLog[l].role in w.roles {
      assert GrantInv(w, w.leaseLog[l].role) && l in LeasesOf(w, w.leaseLog[l].role);
    }
    forall x | x in w.accounts ensures x.grant in w.roles && w.roles[x.grant] == x.db {
      assert GrantInv(w, x.grant) && x in AccountsOf(w, x.grant);
    }
  }

  // ---- sections ------------------------------------------------------------------------------

  /** Past the insert, two threads never work on one grant at the same time; a thread still about to
    * insert a row under a colliding id is the only company one can have. */
  lemma SectionsNeverOverlap(w: World, t: Tid, u: Tid)
    requires Reachable(w) && t in w.threads && u in w.threads && t != u
    requires Holds(w.threads[t].pc) && Holds(w.threads[u].pc)
    ensures w.threads[t].db != w.threads[u].db
    ensures Engaged(w.threads[t].pc) && Engaged(w.threads[u].pc) ==> w.threads[t].g != w.threads[u].g
  {
    ReachableInv(w);
    assert ThreadInv(w, w.threads[t]) && ThreadInv(w, w.threads[u]);
  }

  lemma InflightIsOpen(w: World, g: GrantId)
    requires Reachable(w) && g in w.inflight
    ensures exists t :: t in w.threads && w.threads[t].g == g && InSection(w.threads[t].pc)
  {
    ReachableInv(w);
  }

  /** Whoever holds the lock and is not the issuer knows that an `issuing` row has no live issuer. */
  lemma IssuerIsDead(w: World, t: Tid, u: Tid)
    requires Reachable(w) && t in w.threads && u in w.threads
    requires Holds(w.threads[t].pc) && !w.threads[t].op.Issue?
    requires w.threads[u].g == w.threads[t].g && IssueOnly(w.threads[u].pc)
    ensures w.threads[u].pc.Inserting?
  {
    ReachableInv(w);
    assert ThreadInv(w, w.threads[t]) && ThreadInv(w, w.threads[u]);
    if !w.threads[u].pc.Inserting? {
      OneOwner(w, t, u);
    }
  }

  // ---- live grants ---------------------------------------------------------------------------

  /** A teardown in progress on an active grant is an expiry, more than the slack past the stored
    * time; on an issuing one it is a failure, and on the rest a revocation. */
  lemma TeardownIsCalledFor(w: World, t: Tid)
    requires Reachable(w) && t in w.threads && FinalOf(w.threads[t].pc).Some?
    ensures w.threads[t].g in w.store
    ensures var row := w.store[w.threads[t].g];
            match FinalOf(w.threads[t].pc).value
            case Expired => row.status.Active? && row.expires.Some? && w.clock > row.expires.value + EXPIRY_SLACK
            case Failed => row.status.Issuing?
            case Revoked => row.status.Revoking?
            case _ => false
  {
    ReachableInv(w);
    assert ThreadInv(w, w.threads[t]);
  }

  /** What Vault issued for the accepted lifetimes: the cap never shortens a token, and a token
    * outlives a full-length lease exactly when the credentials were read within the grace. */
  lemma TokenOutlivesLease(w: World, l: LeaseId)
    requires Reachable(w) && l in w.leaseLog
    ensures w.leaseLog[l].token in w.tokenLog && w.leaseLog[l].role in w.store
    ensures var lease, ttl := w.leaseLog[l], w.store[w.leaseLog[l].role].ttl;
            var token := w.tokenLog[lease.token];
            && token.end == token.created + (ttl + TOKEN_GRACE) as real
            && (lease.issued <= token.created + TOKEN_GRACE as real ==> lease.end <= token.end)
            && (lease.end == lease.issued + ttl as real ==>
                  (lease.end <= token.end <==> lease.issued <= token.created + TOKEN_GRACE as real))
  {
    ReachableInv(w);
    assert LeaseInv(w, l) && TokenInv(w, w.leaseLog[l].token) && GrantInv(w, w.leaseLog[l].role);
  }

  /** Until its lease ends, an active grant keeps everything, and no reconciler may touch it;
    * the stored expiry is never before the end of the lease. */
  lemma LiveGrantIsKept(w: World, g: GrantId)
    requires Reachable(w) && g in w.store && w.store[g].status.Active?
    ensures var row := w.store[g];
            row.lease.Some? && row.accessor.Some? && row.expires.Some? && row.username.Some?
            && row.lease.value in w.leaseLog && row.accessor.value in w.tokenLog
    ensures var lease, token := w.leaseLog[w.store[g].lease.value], w.tokenLog[w.store[g].accessor.value];
            && lease.role == g && lease.token == w.store[g].accessor.value
            && Some(lease.account) == w.store[g].username
            && lease.end <= w.store[g].expires.value
            && (w.clock <= lease.end + EXPIRY_SLACK ==> !NeedsWork(w.store[g], w.clock))
            && (w.clock < lease.end && lease.issued <= token.created + TOKEN_GRACE as real ==>
                  && g in w.roles && w.store[g].accessor.value in w.tokens && w.store[g].lease.value in w.leases
                  && lease.account in w.accounts)
  {
    ReachableInv(w);
    assert GrantInv(w, g);
    TokenOutlivesLease(w, w.store[g].lease.value);
  }

  // ---- status --------------------------------------------------------------------------------

  /** The five events at the edges of a section. */
  predicate AtEdge(e: Event) {
    e.Acquire? || e.GiveUp? || e.Enter? || e.Discard? || e.Release?
  }

  predicate Acting(e: Event) {
    OfThread(e) && !Starts(e) && !AtEdge(e)
  }

  /** Starting, entering and leaving move the one thread and touch nothing that belongs to a grant. */
  predicate Moved(w: World, w': World, t: Tid) {
    && SameResources(w, w')
    && w'.threads - {t} == w.threads - {t}
    && (t in w.threads && t in w'.threads ==> w'.threads[t] == w.threads[t].(pc := w'.threads[t].pc))
    && (t in w.threads && t in w'.threads && w'.threads[t].pc.Marking? ==> w.threads[t].op.Revoke? && w.threads[t].pc.Entering?)
    && (t in w.threads && t in w'.threads && w'.threads[t].pc.Entering? ==> w.threads[t].pc.Waiting?)
    && (t in w'.threads && w'.threads[t].pc.Waiting? ==> t !in w.threads)
    && (t !in w.threads ==> t in w'.threads && w'.threads[t].pc.Waiting?)
    && (t !in w.threads && w'.threads[t].op.Revoke? ==>
          w'.threads[t].g in w.store && !Terminal(w.store[w'.threads[t].g].status))
  }

  lemma EdgeMoves(w: World, e: Event, w': World)
    requires Next(w, e) == Some(w') && AtEdge(e)
    ensures e.t in w.threads && Moved(w, w', e.t)
  {
  }

  lemma StartMoves(w: World, e: Event, w': World)
    requires Next(w, e) == Some(w') && Starts(e)
    ensures e.t !in w.threads && Moved(w, w', e.t)
  {
  }

  /** Expiry in Vault, the clock and a crash write no row and create nothing. */
  predicate Outside(w: World, w': World) {
    && w'.store == w.store && w'.roles == w.roles && w'.tokenLog == w.tokenLog && w'.leaseLog == w.leaseLog
    && w'.tokens <= w.tokens && w'.leases <= w.leases && w'.accounts <= w.accounts && w.clock <= w'.clock
    && (w'.threads == w.threads || w'.threads == map[])
  }

  lemma OutsideMoves(w: World, e: Event, w': World)
    requires Next(w, e) == Some(w') && !OfThread(e)
    ensures Outside(w, w') && (!e.Crash? ==> w'.threads == w.threads)
  {
    assert Outer(w, e) == Some(w');
    OuterMoves(w, e, w');
  }

  lemma OuterMoves(w: World, e: Event, w': World)
    requires !OfThread(e) && Outer(w, e) == Some(w')
    ensures Outside(w, w') && (!e.Crash? ==> w'.threads == w.threads)
  {
    match e
    case ExpireLease(cred, _) => OnlyExpires(w, {cred});
    case ExpireToken(acc, kill) => OnlyExpires(w.(tokens := w.tokens - {acc}), kill);
    case _ =>
  }

  lemma OnlyExpires(w: World, kill: set<LeaseId>)
    ensures Outside(w, KillLeases(w, kill))
  {
  }

  /** All an event can do, whatever it is: the world outside, the edge of a section, or a call in it. */
  ghost predicate Changed(w: World, w': World, t: Tid) {
    Outside(w, w') || Moved(w, w', t) || Acted(w, w', t)
  }

  lemma Changes(w: World, e: Event, w': World) returns (t: Tid)
    requires Inv(w) && Next(w, e) == Some(w')
    ensures Changed(w, w', t)
    ensures OfThread(e) ==> t == e.t && (Moved(w, w', t) || Acted(w, w', t))
    ensures !OfThread(e) && !e.Crash? ==> Outside(w, w') && w'.threads == w.threads
  {
    if !OfThread(e) {
      t := 0;
      OutsideMoves(w, e, w');
    } else {
      t := e.t;
      if Starts(e) {
        StartMoves(w, e, w');
      } else if AtEdge(e) {
        EdgeMoves(w, e, w');
      } else {
        KeepActing(w, e, w');
      }
    }
  }

  /** The only ways the status of a row ever changes: `active` and `failed` only from `issuing`,
    * `expired` only from `active`, `revoked` only from `revoking`; rows never disappear and a new
    * row is `issuing`. */
  lemma StatusStep(w: World, e: Event, w': World, g: GrantId)
    requires Reachable(w) && Next(w, e) == Some(w')
    ensures RowFollows(w, w', g)
  {
    ReachableInv(w);
    var t := Changes(w, e, w');
    StatusChange(w, w', t, g);
  }

  predicate RowFollows(w: World, w': World, g: GrantId) {
    && (g in w.store ==> g in w'.store && w'.store[g].db == w.store[g].db && w'.store[g].ttl == w.store[g].ttl
                         && Allowed(w.store[g].status, w'.store[g].status))
    && (g !in w.store && g in w'.store ==> w'.store[g].status.Issuing?)
  }

  lemma StatusChange(w: World, w': World, t: Tid, g: GrantId)
    requires Changed(w, w', t)
    ensures RowFollows(w, w', g)
  {
    if Acted(w, w', t) && g != w.threads[t].g {
      assert SameGrant(w, w', g);
    }
  }

  // ---- closed rows ---------------------------------------------------------------------------

  /** A revoke that passed its status check and has not yet written `revoking`. */
  predicate RevokerOf(th: Thread, g: GrantId) {
    th.g == g && (th.pc.Marking? || (th.op.Revoke? && (th.pc.Waiting? || th.pc.Entering?)))
  }

  ghost predicate RevokerPending(w: World, g: GrantId) {
    exists t :: t in w.threads && RevokerOf(w.threads[t], g)
  }

  predicate Closed(w: World, g: GrantId) {
    g in w.store && Terminal(w.store[g].status)
  }

  /** A closed row changes only at the hands of a revoke that read it before it was closed. */
  lemma ClosedChange(w: World, w': World, t: Tid, g: GrantId)
    requires Inv(w) && Closed(w, g) && !RevokerPending(w, g) && Changed(w, w', t)
    ensures Closed(w', g) && w'.store[g] == w.store[g] && !RevokerPending(w', g)
  {
    forall u | u in w.threads ensures !RevokerOf(w.threads[u], g) {
    }
    if Outside(w, w') {
    } else if Moved(w, w', t) {
      assert t in w.threads ==> ThreadInv(w, w.threads[t]);
      forall u | u in w'.threads && u != t ensures !RevokerOf(w'.threads[u], g) {
        assert u in w'.threads - {t};
      }
    } else if g != w.threads[t].g {
      assert SameGrant(w, w', g);
    }
  }

  lemma {:induction false} ClosedForGood(w: World, es: seq<Event>, w': World, g: GrantId)
    requires Reachable(w) && Closed(w, g) && !RevokerPending(w, g) && Run(w, es) == Some(w')
    ensures Closed(w', g) && w'.store[g] == w.store[g]
  {
    ReachableInv(w);
    ClosedRun(w, es, w', g);
  }

  lemma {:induction false} ClosedRun(w: World, es: seq<Event>, w': World, g: GrantId)
    requires Inv(w) && Closed(w, g) && !RevokerPending(w, g) && Run(w, es) == Some(w')
    ensures Closed(w', g) && w'.store[g] == w.store[g]
    decreases |es|
  {
    if es != [] {
      var m := Next(w, es[0]).value;
      Keep(w, es[0], m);
      var t := Changes(w, es[0], m);
      ClosedChange(w, m, t, g);
      ClosedRun(m, es[1..], w', g);
    }
  }

  /** And such a revoke does reopen it: it does not look at the row again under the lock. */
  lemma ReopenedByRevoke(w: World, t: Tid)
    requires Reachable(w) && t in w.threads && w.threads[t].pc.Marking? && Closed(w, w.threads[t].g)
    ensures var next := Next(w, Mark(t, true, true));
            next.Some? && next.value.store[w.threads[t].g].status.Revoking?
  {
    ReachableInv(w);
    assert ThreadInv(w, w.threads[t]);
  }

  // ---- revoked means gone --------------------------------------------------------------------

  /** Nothing of `g` is left and nothing can come back. */
  predicate Settled(w: World, g: GrantId) {
    g in w.store && Gone(w, g) && !w.store[g].status.Issuing?
  }

  lemma SettledChange(w: World, w': World, t: Tid, g: GrantId)
    requires Inv(w) && Settled(w, g) && Changed(w, w', t)
    ensures Settled(w', g)
  {
    StatusChange(w, w', t, g);
    if Acted(w, w', t) {
      assert ThreadInv(w, w.threads[t]);
      assert g != w.threads[t].g ==> SameGrant(w, w', g);
    } else if Outside(w, w') {
      assert NothingNew(w, w', g);
    }
  }

  lemma {:induction false} SettledRun(w: World, es: seq<Event>, w': World, g: GrantId)
    requires Inv(w) && Settled(w, g) && Run(w, es) == Some(w')
    ensures Settled(w', g)
    decreases |es|
  {
    if es != [] {
      var m := Next(w, es[0]).value;
      Keep(w, es[0], m);
      var t := Changes(w, es[0], m);
      SettledChange(w, m, t, g);
      SettledRun(m, es[1..], w', g);
    }
  }

  /** When `revoke` returns normally, after its own teardown or at once because the row is closed,
    * role, token, lease and account are gone, and stay gone whatever happens next. */
  lemma RevokedMeansGone(w: World, t: Tid, g: GrantId, es: seq<Event>, w': World)
    requires Reachable(w) && Run(w, es) == Some(w')
    requires (t in w.threads && w.threads[t].op.Revoke? && w.threads[t].pc == Releasing(true) && w.threads[t].g == g)
             || Closed(w, g)
    ensures Gone(w, g) && Gone(w', g)
  {
    ReachableInv(w);
    assert GrantInv(w, g);
    assert t in w.threads ==> ThreadInv(w, w.threads[t]);
    assert Closed(w, g);
    SettledRun(w, es, w', g);
  }

  // ---- what a lock holder can rely on --------------------------------------------------------

  /** While `t` holds the lock of its grant, nobody else moves it, writes its row or creates
    * anything for it; Vault may only let things run out. */
  ghost predicate Undisturbed(w: World, w': World, t: Tid) {
    && t in w.threads && t in w'.threads && w'.threads[t] == w.threads[t]
    && w.threads[t].g in w.store && Spared(w, w', w.threads[t].g) && Onward(w, w')
  }

  lemma UndisturbedOn(a: World, b: World, c: World, t: Tid)
    requires Undisturbed(a, b, t) && Undisturbed(b, c, t)
    ensures Undisturbed(a, c, t)
  {
    SparedOn(a, b, c, a.threads[t].g);
  }

  lemma OthersKeepMyGrant(w: World, e: Event, w': World, t: Tid)
    requires Inv(w) && Next(w, e) == Some(w') && t in w.threads
    requires Holds(w.threads[t].pc) && Own(w, w.threads[t])
    requires !e.Crash? && !By(e, t)
    ensures Undisturbed(w, w', t)
  {
    if OfThread(e) {
      var u := Changes(w, e, w');
      ChangeKeepsMyGrant(w, w', t, u);
    } else {
      OuterAges(w, e, w');
    }
  }

  lemma ChangeKeepsMyGrant(w: World, w': World, t: Tid, u: Tid)
    requires Inv(w) && t in w.threads && Holds(w.threads[t].pc) && Own(w, w.threads[t])
    requires u != t && (Moved(w, w', u) || Acted(w, w', u))
    ensures Undisturbed(w, w', t)
  {
    if Acted(w, w', u) {
      OtherActs(w, w', t, u);
    } else {
      assert t in w.threads - {u};
      AgedIfSame(w, w');
    }
  }

  lemma OtherActs(w: World, w': World, t: Tid, u: Tid)
    requires Inv(w) && Acted(w, w', u) && t in w.threads && t != u
    requires Holds(w.threads[t].pc) && Own(w, w.threads[t])
    ensures Undisturbed(w, w', t)
  {
    var g, other := w.threads[t].g, w.threads[u];
    assert ThreadInv(w, other);
    assert SameGrant(w, w', g) by {
      if other.g == g && Own(w, other) {
        OneOwner(w, t, u);
      }
    }
    SparedIfSame(w, w', g);
  }
}
