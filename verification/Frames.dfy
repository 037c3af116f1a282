/** What part of the world each piece of the invariant looks at, so that a step need only account for
  * the grant it works on. */
module Frames {
  import opened Names
  import opened Wrappers
  import opened Protocol
  import opened Invariant

  // ---- frame lemmas --------------------------------------------------------------------------

  lemma GrantFrame(w: World, w': World, h: GrantId)
    requires GrantInv(w, h) && SameGrant(w, w', h) && LogsGrow(w, w') && w'.clock == w.clock
    ensures GrantInv(w', h)
  {
  }

  lemma ThreadFrame(w: World, w': World, th: Thread)
    requires ThreadInv(w, th) && SameGrant(w, w', th.g) && LogsGrow(w, w') && w'.clock == w.clock
    ensures ThreadInv(w', th)
  {
  }

  /** The log invariant only looks at the logs, at row lifetimes and at the clock. */
  lemma LogKept(w: World, m: World)
    requires LogInv(w) && m.tokenLog == w.tokenLog && m.leaseLog == w.leaseLog && w.clock <= m.clock
    requires m.tokens <= w.tokens && m.leases <= w.leases
    requires forall g :: g in w.store ==> g in m.store && m.store[g].ttl == w.store[g].ttl && m.store[g].db == w.store[g].db
    ensures LogInv(m)
  {
    forall a | a in m.tokenLog ensures TokenInv(m, a) {
      assert TokenInv(w, a);
    }
    forall l | l in m.leaseLog ensures LeaseInv(m, l) {
      assert LeaseInv(w, l);
    }
  }

  /** Two threads that both own one grant and hold a lock are one thread. */
  lemma OneOwner(w: World, t: Tid, u: Tid)
    requires LockInv(w) && t in w.threads && u in w.threads
    requires w.threads[t].g == w.threads[u].g
    requires Own(w, w.threads[t]) && Own(w, w.threads[u])
    requires Holds(w.threads[t].pc) && Holds(w.threads[u].pc)
    ensures t == u
  {
  }

  lemma LocalLocks(w: World, w': World, t: Tid, th': Thread)
    requires LockInv(w) && Local(w, w', t, th')
    ensures LockInv(w')
  {
    forall g | g in w'.inflight
      ensures exists u :: u in w'.threads && w'.threads[u].g == g && InSection(w'.threads[u].pc)
    {
      var u :| u in w.threads && w.threads[u].g == g && InSection(w.threads[u].pc);
      assert u in w'.threads && w'.threads[u].g == g && InSection(w'.threads[u].pc);
    }
  }

  lemma OtherThread(w: World, w': World, t: Tid, th': Thread, u: Tid)
    requires Inv(w) && Local(w, w', t, th')
    requires SameGrant(w, w', th'.g) || Own(w, w.threads[t]) || th'.g !in w.store
    requires u in w.threads && u != t
    ensures ThreadInv(w', w.threads[u])
  {
    var th, other := w.threads[t], w.threads[u];
    assert ThreadInv(w, th) && ThreadInv(w, other);
    if SameGrant(w, w', other.g) {
      ThreadFrame(w, w', other);
    } else if Engaged(other.pc) {
      assert Own(w, th) && Own(w, other);
      OneOwner(w, t, u);
    }
  }

  lemma LocalStep(w: World, w': World, t: Tid, th': Thread)
    requires Inv(w) && Local(w, w', t, th')
    requires SameGrant(w, w', th'.g) || Own(w, w.threads[t]) || th'.g !in w.store
    requires LogInv(w') && GrantInv(w', th'.g) && ThreadInv(w', th')
    ensures Inv(w')
  {
    LocalLocks(w, w', t, th');
    forall h ensures GrantInv(w', h) {
      if h != th'.g {
        GrantFrame(w, w', h);
      }
    }
    forall u | u in w'.threads ensures ThreadInv(w', w'.threads[u]) {
      if u != t {
        OtherThread(w, w', t, th', u);
      }
    }
  }

  // ---- the matching rules find exactly what belongs to the grant -----------------------------

  lemma FoundIsOwn(w: World, db: Db, g: GrantId)
    requires Inv(w) && g in w.store && w.store[g].db == db
    ensures Found(w, db, g) == AccountsOf(w, g)
    ensures Proper(g, AccountsOf(w, g))
  {
    assert GrantInv(w, g);
    forall a | a in w.accounts ensures a in Found(w, db, g) <==> a in AccountsOf(w, g) {
      assert GrantInv(w, a.grant);
      assert a in AccountsOf(w, a.grant);
      PrefixIsOwnership(g, a.grant, a.random);
    }
  }

  lemma ScannedIsOwn(w: World, g: GrantId)
    requires LogInv(w) && IsGrantId(g)
    ensures Scanned(w, g) == TokensOf(w, g)
  {
    GrantIdIsPortalLabel(g);
    forall a | a in w.tokens ensures a in Scanned(w, g) <==> a in TokensOf(w, g) {
      assert TokenInv(w, a);
      GrantIdIsPortalLabel(w.tokenLog[a].tag);
      DisplayMatchIsLabel(w.tokenLog[a].tag, g);
    }
  }

  lemma ProperIsValid(g: GrantId, todo: set<Account>, a: Account)
    requires IsGrantId(g) && Proper(g, todo) && a in todo
    ensures ValidAccount(NameOf(a))
  {
    UsernameIsValid(g, a.random);
  }
}
