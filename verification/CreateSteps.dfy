/** Steps that make a role, a token, a lease or an account keep the invariant. */
module CreateSteps {
  import opened Names
  import opened Wrappers
  import opened Protocol
  import opened Invariant
  import opened Frames
  import opened RowSteps

  // ---- steps that create resources -----------------------------------------------------------

  /** A step that may change any resource of the thread's own grant. */
  lemma EffectStep(w: World, m: World, t: Tid, pc: Pc)
    requires Inv(w) && t in w.threads && InSection(w.threads[t].pc) && InSection(pc)
    requires Own(w, w.threads[t])
    requires m == w.(roles := m.roles, tokens := m.tokens, tokenLog := m.tokenLog,
                     leases := m.leases, leaseLog := m.leaseLog, accounts := m.accounts)
    requires LogsGrow(w, m) && LogInv(m)
    requires OnlyOwn(w, m, w.threads[t].g)
    requires GrantInv(m, w.threads[t].g) && ThreadInv(m, w.threads[t].(pc := pc))
    requires !pc.Marking? && (Creates(w.threads[t].pc) || NothingNew(w, m, w.threads[t].g))
    requires w.threads[t].pc.WritingRole? || w.threads[t].pc.DeletingRole? || m.roles == w.roles
    ensures Inv(Goto(m, t, pc)) && Acted(w, Goto(m, t, pc), t)
  {
    var w', th' := Goto(m, t, pc), w.threads[t].(pc := pc);
    EffectActed(w, m, t, pc);
    assert SameGrant(m, w', th'.g);
    ThreadFrame(m, w', th');
    GrantFrame(m, w', th'.g);
    LogKept(m, w');
    LocalStep(w, w', t, th');
  }

  lemma EffectActed(w: World, m: World, t: Tid, pc: Pc)
    requires t in w.threads && InSection(w.threads[t].pc) && InSection(pc)
    requires Own(w, w.threads[t])
    requires m == w.(roles := m.roles, tokens := m.tokens, tokenLog := m.tokenLog,
                     leases := m.leases, leaseLog := m.leaseLog, accounts := m.accounts)
    requires LogsGrow(w, m) && OnlyOwn(w, m, w.threads[t].g)
    requires !pc.Marking? && (Creates(w.threads[t].pc) || NothingNew(w, m, w.threads[t].g))
    requires w.threads[t].pc.WritingRole? || w.threads[t].pc.DeletingRole? || m.roles == w.roles
    ensures Acted(w, Goto(m, t, pc), t) && Local(w, Goto(m, t, pc), t, w.threads[t].(pc := pc))
  {
    var w', g := Goto(m, t, pc), w.threads[t].g;
    forall h | h != g ensures SameGrant(w, w', h) {
      assert SameGrant(w, m, h) && SameGrant(m, w', h);
    }
    assert NothingNew(w, m, g) ==> NothingNew(w, w', g);
  }

  lemma KeepWriteRole(w: World, t: Tid, o: Outcome, audited: bool, w': World)
    requires Inv(w) && t in w.threads && DoWriteRole(w, t, w.threads[t], o, audited) == Some(w')
    ensures Inv(w') && Acted(w, w', t)
  {
    if Applied(o) {
      var pc := if o.Done? then CreatingToken else Abandon(audited);
      assert w' == Goto(w.(roles := w.roles[w.threads[t].g := w.threads[t].db]), t, pc);
      RoleStep(w, t, pc);
    } else {
      AbandonStep(w, t, audited);
    }
  }

  lemma RoleStep(w: World, t: Tid, pc: Pc)
    requires Inv(w) && t in w.threads && w.threads[t].pc.WritingRole?
    requires pc == Fetching(Failed) || pc == Leaving(false) || pc == CreatingToken
    ensures var m := w.(roles := w.roles[w.threads[t].g := w.threads[t].db]);
            Inv(Goto(m, t, pc)) && Acted(w, Goto(m, t, pc), t)
  {
    var th := w.threads[t];
    var m := w.(roles := w.roles[th.g := th.db]);
    assert ThreadInv(w, th) && GrantInv(w, th.g);
    LogKept(w, m);
    EffectStep(w, m, t, pc);
  }

  lemma TokenAdded(w: World, g: GrantId, acc: Accessor, token: Token)
    requires LogInv(w) && acc !in w.tokenLog && token.tag == g && IsGrantId(g) && g in w.store
    requires token.end == token.created + TokenTtl(w.store[g].ttl) as real
    ensures LogInv(WithToken(w, acc, token))
    ensures OnlyOwn(w, WithToken(w, acc, token), g)
  {
    var m := WithToken(w, acc, token);
    forall a | a in m.tokenLog ensures TokenInv(m, a) {
      if a != acc {
        assert TokenInv(w, a);
      }
    }
    forall l | l in m.leaseLog ensures LeaseInv(m, l) {
      assert LeaseInv(w, l);
    }
  }

  lemma TokenStep(w: World, t: Tid, acc: Accessor, token: Token, pc: Pc)
    requires Inv(w) && t in w.threads && w.threads[t].pc.CreatingToken? && w.threads[t].op.Issue?
    requires acc !in w.tokenLog && token.tag == w.threads[t].g
    requires token.end == token.created + TokenTtl(w.threads[t].op.ttl) as real
    requires pc == Fetching(Failed) || pc == Leaving(false) || pc == StoringAccessor(acc)
    ensures Inv(Goto(WithToken(w, acc, token), t, pc)) && Acted(w, Goto(WithToken(w, acc, token), t, pc), t)
  {
    var th, m := w.threads[t], WithToken(w, acc, token);
    var g := th.g;
    assert ThreadInv(w, th) && GrantInv(w, g);
    TokenAdded(w, g, acc, token);
    assert TokensEver(m, g) == {acc} && LeasesEver(m, g) == LeasesEver(w, g)
        && LeasesOf(m, g) == LeasesOf(w, g) && AccountsOf(m, g) == AccountsOf(w, g);
    EffectStep(w, m, t, pc);
  }

  lemma KeepCreateToken(w: World, t: Tid, o: Outcome, audited: bool, acc: Accessor, w': World)
    requires Inv(w) && t in w.threads && DoCreateToken(w, t, w.threads[t], o, audited, acc) == Some(w')
    ensures Inv(w') && Acted(w, w', t)
  {
    var token := Token(w.threads[t].g, w.clock, w.clock + TokenTtl(w.threads[t].op.ttl) as real);
    if o.Done? {
      assert w' == Goto(WithToken(w, acc, token), t, StoringAccessor(acc));
      TokenStep(w, t, acc, token, StoringAccessor(acc));
    } else if o.Lost? {
      assert w' == Goto(WithToken(w, acc, token), t, Abandon(audited));
      TokenStep(w, t, acc, token, Abandon(audited));
    } else {
      assert w' == Goto(w, t, Abandon(audited));
      AbandonStep(w, t, audited);
    }
  }

  /** The account, and unless it is `None` the lease, that reading credentials leaves. */
  function WithAccount(w: World, account: Account, cred: Option<LeaseId>, lease: Lease): World {
    var m := w.(accounts := w.accounts + {account});
    if cred.None? then m
    else m.(leases := w.leases + {cred.value}, leaseLog := w.leaseLog[cred.value := lease])
  }

  lemma AccountAdded(w: World, account: Account, cred: Option<LeaseId>, lease: Lease)
    requires LogInv(w) && account.grant in w.store && account.db == w.store[account.grant].db
    requires cred.Some? ==>
      && cred.value !in w.leaseLog
      && lease.role == account.grant && lease.account == account
      && lease.token in w.tokenLog && w.tokenLog[lease.token].tag == lease.role
      && lease.issued == w.clock
      && lease.issued < lease.end <= lease.issued + w.store[account.grant].ttl as real
    ensures LogInv(WithAccount(w, account, cred, lease))
    ensures OnlyOwn(w, WithAccount(w, account, cred, lease), account.grant)
  {
    var m := WithAccount(w, account, cred, lease);
    forall a | a in m.tokenLog ensures TokenInv(m, a) {
      assert TokenInv(w, a);
    }
    forall l | l in m.leaseLog ensures LeaseInv(m, l) {
      if l in w.leaseLog {
        assert LeaseInv(w, l);
      }
    }
  }

  lemma CredsStep(w: World, t: Tid, account: Account, cred: Option<LeaseId>, lease: Lease, pc: Pc)
    requires Inv(w) && t in w.threads && w.threads[t].pc.ReadingCreds?
    requires w.threads[t].g in w.roles && account.db == w.roles[w.threads[t].g]
    requires account.grant == w.threads[t].g && IsSuffix(account.random)
    requires w.threads[t].pc.acc in w.tokens
    requires cred.Some? ==>
      && cred.value !in w.leaseLog
      && lease.role == w.threads[t].g && lease.account == account && lease.token == w.threads[t].pc.acc
      && lease.issued == w.clock && w.threads[t].op.Issue?
      && lease.issued < lease.end <= lease.issued + w.threads[t].op.ttl as real
    requires pc == Fetching(Failed) || pc == Leaving(false) || (cred.Some? && pc == Activating(cred.value))
    ensures Inv(Goto(WithAccount(w, account, cred, lease), t, pc)) && Acted(w, Goto(WithAccount(w, account, cred, lease), t, pc), t)
  {
    var th, m := w.threads[t], WithAccount(w, account, cred, lease);
    var g := th.g;
    assert ThreadInv(w, th) && GrantInv(w, g);
    AccountAdded(w, account, cred, lease);
    CredsOwn(w, th, account, cred, lease, pc);
    EffectStep(w, m, t, pc);
  }

  lemma CredsOwn(w: World, th: Thread, account: Account, cred: Option<LeaseId>, lease: Lease, pc: Pc)
    requires ThreadInv(w, th) && GrantInv(w, th.g) && th.pc.ReadingCreds? && w.tokens <= w.tokenLog.Keys
    requires account.grant == th.g && IsSuffix(account.random) && account.db == w.roles[th.g] && th.g in w.roles
    requires th.pc.acc in w.tokens && LogInv(w)
    requires cred.Some? ==>
      && cred.value !in w.leaseLog
      && lease.role == th.g && lease.account == account && lease.token == th.pc.acc
    requires pc == Fetching(Failed) || pc == Leaving(false) || (cred.Some? && pc == Activating(cred.value))
    ensures GrantInv(WithAccount(w, account, cred, lease), th.g)
    ensures ThreadInv(WithAccount(w, account, cred, lease), th.(pc := pc))
  {
    var m := WithAccount(w, account, cred, lease);
    assert cred.Some? ==> LeasesEver(m, th.g) == {cred.value} && LeasesOf(m, th.g) == {cred.value};
    assert AccountsOf(m, th.g) == {account};
  }

  lemma KeepReadCreds(w: World, t: Tid, o: Outcome, audited: bool, cred: LeaseId, random: string, duration: nat, w': World)
    requires Inv(w) && t in w.threads
    requires DoReadCreds(w, t, w.threads[t], o, audited, cred, random, duration) == Some(w')
    ensures Inv(w') && Acted(w, w', t)
  {
    var th := w.threads[t];
    if o.Rejected? {
      AbandonStep(w, t, audited);
    } else {
      var account := Account(w.roles[th.g], th.g, random);
      var lease := Lease(th.g, account, th.pc.acc, w.clock, w.clock + duration as real);
      var made := if o.Partial? then None else Some(cred);
      var pc := if o.Done? then Activating(cred) else Abandon(audited);
      assert w' == Goto(WithAccount(w, account, made, lease), t, pc);
      CredsStep(w, t, account, made, lease, pc);
    }
  }
}
