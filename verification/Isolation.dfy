/** What a grant may lose while nobody works on it: only what has run out. */
module Isolation {
  import opened Names
  import opened Wrappers
  import opened Protocol
  import opened Invariant
  import opened Frames

  /** Lease `l` of `h` is past its end, or its token is gone and Vault may end it at any time. */
  predicate RanOut(w: World, h: GrantId, l: LeaseId) {
    && l in w.leaseLog && w.leaseLog[l].role == h
    && (w.clock >= w.leaseLog[l].end || w.leaseLog[l].token !in TokensOf(w, h))
  }

  /** Row and role of `h` are the same, nothing new came, and whatever is missing had run out. */
  ghost predicate Spared(w: World, m: World, h: GrantId) {
    && (h in w.store <==> h in m.store) && (h in w.store ==> m.store[h] == w.store[h])
    && ResourcesSpared(w, m, h)
  }

  ghost predicate ResourcesSpared(w: World, m: World, h: GrantId) {
    && (h in w.roles <==> h in m.roles) && (h in w.roles ==> m.roles[h] == w.roles[h])
    && TokensOf(m, h) <= TokensOf(w, h) && LeasesOf(m, h) <= LeasesOf(w, h) && AccountsOf(m, h) <= AccountsOf(w, h)
    && (forall a :: a in TokensOf(w, h) - TokensOf(m, h) ==> a in m.tokenLog && m.clock >= m.tokenLog[a].end)
    && (forall l :: l in LeasesOf(w, h) - LeasesOf(m, h) ==> RanOut(m, h, l))
    && (forall x :: x in AccountsOf(w, h) - AccountsOf(m, h) ==> LostByExpiry(m, h, x))
  }

  ghost predicate LostByExpiry(m: World, h: GrantId, x: Account) {
    exists l :: RanOut(m, h, l) && m.leaseLog[l].account == x
  }

  /** Time went on and the logs only grew. */
  ghost predicate Onward(w: World, m: World) {
    LogsGrow(w, m) && w.clock <= m.clock
  }

  ghost predicate Aged(w: World, m: World) {
    Onward(w, m) && forall h :: Spared(w, m, h)
  }

  ghost predicate OthersSpared(w: World, m: World, g: GrantId) {
    Onward(w, m) && forall h :: h != g ==> Spared(w, m, h)
  }

  lemma OnwardOn(a: World, b: World, c: World)
    requires Onward(a, b) && Onward(b, c)
    ensures Onward(a, c)
  {
  }

  lemma SparedIfSame(w: World, m: World, h: GrantId)
    requires SameGrant(w, m, h)
    ensures Spared(w, m, h)
  {
  }

  lemma RanOutStays(b: World, c: World, h: GrantId, l: LeaseId)
    requires Onward(b, c) && TokensOf(c, h) <= TokensOf(b, h) && RanOut(b, h, l)
    ensures RanOut(c, h, l) && c.leaseLog[l] == b.leaseLog[l]
  {
  }

  lemma SparedOn(a: World, b: World, c: World, h: GrantId)
    requires Spared(a, b, h) && Spared(b, c, h) && Onward(b, c)
    ensures Spared(a, c, h)
  {
    ResourcesSparedOn(a, b, c, h);
  }

  lemma ResourcesSparedOn(a: World, b: World, c: World, h: GrantId)
    requires ResourcesSpared(a, b, h) && ResourcesSpared(b, c, h) && Onward(b, c)
    ensures ResourcesSpared(a, c, h)
  {
    forall t | t in TokensOf(a, h) - TokensOf(c, h) ensures t in c.tokenLog && c.clock >= c.tokenLog[t].end {
      assert t in TokensOf(a, h) - TokensOf(b, h) || t in TokensOf(b, h) - TokensOf(c, h);
    }
    forall l | l in LeasesOf(a, h) - LeasesOf(c, h) ensures RanOut(c, h, l) {
      if l in LeasesOf(a, h) - LeasesOf(b, h) {
        RanOutStays(b, c, h, l);
      } else {
        assert l in LeasesOf(b, h) - LeasesOf(c, h);
      }
    }
    forall x | x in AccountsOf(a, h) - AccountsOf(c, h) ensures LostByExpiry(c, h, x) {
      if x in AccountsOf(a, h) - AccountsOf(b, h) {
        var l :| RanOut(b, h, l) && b.leaseLog[l].account == x;
        RanOutStays(b, c, h, l);
      } else {
        assert x in AccountsOf(b, h) - AccountsOf(c, h);
      }
    }
  }

  lemma AgedOn(a: World, b: World, c: World)
    requires Aged(a, b) && Aged(b, c)
    ensures Aged(a, c)
  {
    forall h ensures Spared(a, c, h) {
      SparedOn(a, b, c, h);
    }
  }

  lemma OthersSparedOn(a: World, b: World, c: World, g: GrantId)
    requires OthersSpared(a, b, g) && OthersSpared(b, c, g)
    ensures OthersSpared(a, c, g)
  {
    forall h | h != g ensures Spared(a, c, h) {
      SparedOn(a, b, c, h);
    }
  }

  lemma AgedIfSame(w: World, m: World)
    requires m == w.(threads := m.threads, locks := m.locks, inflight := m.inflight)
    ensures Aged(w, m)
  {
    forall h ensures Spared(w, m, h) {
    }
  }

  lemma AgedSparesOthers(w: World, m: World, g: GrantId)
    requires Aged(w, m)
    ensures OthersSpared(w, m, g)
  {
  }

  lemma OnlyOwnSpares(w: World, m: World, g: GrantId)
    requires OnlyOwn(w, m, g) && Onward(w, m)
    ensures OthersSpared(w, m, g)
  {
    forall h | h != g ensures Spared(w, m, h) {
      assert SameGrant(w, m, h);
    }
  }

  /** What Vault and time do on their own takes away only what has run out. */
  lemma OuterAges(w: World, e: Event, m: World)
    requires LogInv(w) && !OfThread(e) && !e.Crash? && Outer(w, e) == Some(m)
    ensures Aged(w, m)
    ensures m.store == w.store && m.roles == w.roles
    ensures m.threads == w.threads && m.locks == w.locks && m.inflight == w.inflight
  {
    match e
    case ExpireLease(cred, recorded) =>
      LeaseExpires(w, cred, recorded);
    case ExpireToken(acc, kill) =>
      TokenExpires(w, acc, kill);
    case Tick(d) =>
      forall h ensures Spared(w, m, h) {
      }
  }

  lemma LeaseExpires(w: World, cred: LeaseId, recorded: bool)
    requires LogInv(w) && cred in w.leases && (w.clock >= w.leaseLog[cred].end || w.leaseLog[cred].token !in w.tokens)
    ensures Aged(w, if recorded then KillLeases(w, {cred}) else w.(accounts := w.accounts - Doomed(w, {cred})))
  {
    var m := if recorded then KillLeases(w, {cred}) else w.(accounts := w.accounts - Doomed(w, {cred}));
    assert LeaseInv(w, cred);
    assert RanOut(m, w.leaseLog[cred].role, cred);
    forall h ensures Spared(w, m, h) {
      forall x | x in AccountsOf(w, h) - AccountsOf(m, h) ensures LostByExpiry(m, h, x) {
        assert x == w.leaseLog[cred].account;
      }
    }
  }

  lemma TokenExpires(w: World, acc: Accessor, kill: set<LeaseId>)
    requires LogInv(w) && acc in w.tokens && w.clock >= w.tokenLog[acc].end && kill <= LeasesByToken(w, acc)
    ensures Aged(w, KillToken(w, acc, kill))
  {
    var m := KillToken(w, acc, kill);
    forall l | l in kill ensures LeaseInv(w, l) && RanOut(m, w.leaseLog[l].role, l) {
      assert l in LeasesByToken(w, acc) && LeaseInv(w, l);
    }
    forall h ensures Spared(w, m, h) {
      forall x | x in AccountsOf(w, h) - AccountsOf(m, h) ensures LostByExpiry(m, h, x) {
        var l :| l in kill && l in w.leaseLog && x == w.leaseLog[l].account;
        assert RanOut(m, h, l);
      }
    }
  }

  // ---- what the reconciler decides from --------------------------------------------------------

  /** An active row more than the slack past its stored expiry. */
  predicate Overdue(row: Row, now: real) {
    row.status.Active? && row.expires.Some? && now > row.expires.value + EXPIRY_SLACK
  }

  /** A row left half-done, or overdue. */
  predicate NeedsWork(row: Row, now: real) {
    row.status.Issuing? || row.status.Revoking? || Overdue(row, now)
  }

  /** What becomes of a row that needs work: an issue fails, a revocation is completed, an overdue
    * grant expires, and nothing else in the row changes. */
  predicate EndedRight(row: Row, now: real, after: Row) {
    && NeedsWork(row, now)
    && (row.status.Issuing? ==> after == row.(status := Failed))
    && (row.status.Revoking? ==> after == row.(status := Revoked))
    && (row.status.Active? ==> after == row.(status := Expired))
  }

  /** `_final_for` asks for work exactly where it is needed, and for the right end. */
  lemma FinalIsRight(row: Row, now: real)
    ensures FinalFor(row, now).Some? <==> NeedsWork(row, now)
    ensures NeedsWork(row, now) ==> EndedRight(row, now, row.(status := FinalFor(row, now).value))
  {
  }

  /** What a row calls for it goes on calling for as time passes. */
  lemma FinalStays(row: Row, now: real, later: real)
    requires NeedsWork(row, now) && now <= later
    ensures NeedsWork(row, later)
    ensures forall after :: EndedRight(row, later, after) <==> EndedRight(row, now, after)
  {
  }

  lemma GoneStays(w: World, m: World, g: GrantId)
    requires Gone(w, g) && Spared(w, m, g)
    ensures Gone(m, g)
  {
  }
}
