/** Steps that remove resources, and expiry and time on their own, keep the invariant. */
module RemoveSteps {
  import opened Names
  import opened Wrappers
  import opened Protocol
  import opened Invariant
  import opened Frames
  import opened RowSteps
  import opened CreateSteps

  // ---- steps that remove resources -----------------------------------------------------------

  /** From `w` to `m` only resources of `g` disappear. */
  ghost predicate Shrinks(w: World, m: World, g: GrantId) {
    && m == w.(roles := m.roles, tokens := m.tokens, leases := m.leases, accounts := m.accounts)
    && m.tokens <= w.tokens && m.leases <= w.leases && m.accounts <= w.accounts
    && (m.roles == w.roles || m.roles == w.roles - {g})
    && (forall a :: a in w.tokens && a !in m.tokens ==> a in w.tokenLog && w.tokenLog[a].tag == g)
    && (forall l :: l in w.leases && l !in m.leases ==> l in w.leaseLog && w.leaseLog[l].role == g)
    && (forall x :: x in w.accounts && x !in m.accounts ==> x.grant == g)
  }

  lemma ShrinkFrame(w: World, m: World, g: GrantId)
    requires LogInv(w) && Shrinks(w, m, g)
    ensures LogsGrow(w, m) && LogInv(m)
    ensures OnlyOwn(w, m, g)
  {
    LogKept(w, m);
  }

  lemma ShrinkStep(w: World, m: World, t: Tid, pc: Pc)
    requires Inv(w) && t in w.threads && InSection(w.threads[t].pc) && InSection(pc)
    requires Own(w, w.threads[t]) && Shrinks(w, m, w.threads[t].g)
    requires GrantInv(m, w.threads[t].g) && ThreadInv(m, w.threads[t].(pc := pc)) && !pc.Marking?
    requires w.threads[t].pc.DeletingRole? || m.roles == w.roles
    ensures Inv(Goto(m, t, pc)) && Acted(w, Goto(m, t, pc), t)
  {
    ShrinkFrame(w, m, w.threads[t].g);
    EffectStep(w, m, t, pc);
  }

  /** A grant whose teardown is due may lose anything, its role last. */
  lemma DueShrinks(w: World, m: World, g: GrantId, final: Status)
    requires Inv(w) && g in w.store && Due(w, g, final) && Shrinks(w, m, g)
    requires m.roles != w.roles ==> TokensOf(w, g) == {} && LeasesOf(w, g) == {} && AccountsOf(w, g) == {}
    ensures GrantInv(m, g)
  {
    assert GrantInv(w, g);
  }

  /** Ending leases of one grant removes those leases and only accounts of that grant. */
  lemma KillShrinks(w: World, kill: set<LeaseId>, g: GrantId)
    requires LogInv(w) && kill <= LeasesEver(w, g)
    ensures Shrinks(w, KillLeases(w, kill), g)
    ensures Shrinks(w, w.(accounts := w.accounts - Doomed(w, kill)), g)
    ensures LeasesOf(KillLeases(w, kill), g) == LeasesOf(w, g) - kill
    ensures AccountsOf(KillLeases(w, kill), g) == AccountsOf(w, g) - Doomed(w, kill)
  {
    forall x | x in Doomed(w, kill) ensures x.grant == g {
      var l :| l in kill && l in w.leases && l in w.leaseLog && x == w.leaseLog[l].account;
      assert LeaseInv(w, l);
    }
  }

  lemma LeaseGoneThread(w: World, m: World, th: Thread, cred: LeaseId)
    requires ThreadInv(w, th) && th.pc.RevokingLeases? && Shrinks(w, m, th.g)
    requires LeasesOf(m, th.g) == LeasesOf(w, th.g) - {cred}
    ensures ThreadInv(m, th.(pc := Failing))
    ensures ThreadInv(m, th.(pc := LeasePc(th.pc.td, th.pc.leases - {cred})))
  {
  }

  lemma LeaseGone(w: World, t: Tid, cred: LeaseId, pc: Pc)
    requires Inv(w) && t in w.threads && w.threads[t].pc.RevokingLeases? && cred in w.threads[t].pc.leases
    requires pc == Failing || pc == LeasePc(w.threads[t].pc.td, w.threads[t].pc.leases - {cred})
    ensures Inv(Goto(KillLeases(w, {cred}), t, pc)) && Acted(w, Goto(KillLeases(w, {cred}), t, pc), t)
  {
    var th, m := w.threads[t], KillLeases(w, {cred});
    assert ThreadInv(w, th);
    KillShrinks(w, {cred}, th.g);
    DueShrinks(w, m, th.g, th.pc.td.final);
    LeaseGoneThread(w, m, th, cred);
    ShrinkStep(w, m, t, pc);
  }

  lemma LeaseHalfGone(w: World, t: Tid, cred: LeaseId)
    requires Inv(w) && t in w.threads && w.threads[t].pc.RevokingLeases? && cred in w.threads[t].pc.leases
    ensures Inv(Goto(w.(accounts := w.accounts - Doomed(w, {cred})), t, Failing)) && Acted(w, Goto(w.(accounts := w.accounts - Doomed(w, {cred})), t, Failing), t)
  {
    var th, m := w.threads[t], w.(accounts := w.accounts - Doomed(w, {cred}));
    assert ThreadInv(w, th);
    KillShrinks(w, {cred}, th.g);
    DueShrinks(w, m, th.g, th.pc.td.final);
    ShrinkStep(w, m, t, Failing);
  }

  lemma KeepRevokeLease(w: World, t: Tid, cred: LeaseId, o: Outcome, w': World)
    requires Inv(w) && t in w.threads && DoRevokeLease(w, t, w.threads[t], cred, o) == Some(w')
    ensures Inv(w') && Acted(w, w', t)
  {
    if Applied(o) {
      LeaseGone(w, t, cred, w'.threads[t].pc);
    } else if o.Partial? {
      LeaseHalfGone(w, t, cred);
    } else {
      FailStep(w, t);
    }
  }

  lemma AccountLost(w: World, t: Tid, account: Account)
    requires Inv(w) && t in w.threads && w.threads[t].pc.Dropping? && account in w.threads[t].pc.accounts
    ensures Inv(Goto(w.(accounts := w.accounts - {account}), t, Failing))
    ensures Acted(w, Goto(w.(accounts := w.accounts - {account}), t, Failing), t)
  {
    var th, m := w.threads[t], w.(accounts := w.accounts - {account});
    assert ThreadInv(w, th);
    DueShrinks(w, m, th.g, th.pc.td.final);
    ShrinkStep(w, m, t, Failing);
  }

  lemma AccountGone(w: World, t: Tid, account: Account, pc: Pc)
    requires Inv(w) && t in w.threads && w.threads[t].pc.Dropping? && account in w.threads[t].pc.accounts
    requires pc == DropPc(w.threads[t].pc.td, w.threads[t].pc.accounts - {account})
    ensures Inv(Goto(w.(accounts := w.accounts - {account}), t, pc))
    ensures Acted(w, Goto(w.(accounts := w.accounts - {account}), t, pc), t)
  {
    var th, m := w.threads[t], w.(accounts := w.accounts - {account});
    assert ThreadInv(w, th);
    assert AccountsOf(m, th.g) == AccountsOf(w, th.g) - {account};
    DueShrinks(w, m, th.g, th.pc.td.final);
    ShrinkStep(w, m, t, pc);
  }

  lemma KeepDrop(w: World, t: Tid, account: Account, o: Outcome, w': World)
    requires Inv(w) && t in w.threads && DoDrop(w, t, w.threads[t], account, o) == Some(w')
    ensures Inv(w') && Acted(w, w', t)
  {
    if ValidAccount(NameOf(account)) && o.Done? {
      AccountGone(w, t, account, w'.threads[t].pc);
    } else if ValidAccount(NameOf(account)) && o.Lost? {
      AccountLost(w, t, account);
    } else {
      FailStep(w, t);
    }
  }

  lemma TokenLeasesOwn(w: World, acc: Accessor, g: GrantId)
    requires LogInv(w) && acc in TokensEver(w, g)
    ensures LeasesByToken(w, acc) <= LeasesEver(w, g)
  {
    forall l | l in LeasesByToken(w, acc) ensures l in LeasesEver(w, g) {
      assert LeaseInv(w, l);
    }
  }

  /** Ending a token of a grant removes that token, and leases and accounts of that grant only. */
  lemma KillTokenShrinks(w: World, acc: Accessor, kill: set<LeaseId>, g: GrantId)
    requires LogInv(w) && acc in TokensEver(w, g) && kill <= LeasesByToken(w, acc)
    ensures Shrinks(w, KillToken(w, acc, kill), g)
    ensures TokensOf(KillToken(w, acc, kill), g) == TokensOf(w, g) - {acc}
    ensures LeasesOf(KillToken(w, acc, kill), g) <= LeasesOf(w, g)
    ensures AccountsOf(KillToken(w, acc, kill), g) <= AccountsOf(w, g)
  {
    var m := w.(tokens := w.tokens - {acc});
    TokenLeasesOwn(w, acc, g);
    LogKept(w, m);
    assert LeasesEver(m, g) == LeasesEver(w, g);
    KillShrinks(m, kill, g);
  }

  lemma TokenGone(w: World, t: Tid, acc: Accessor, pc: Pc)
    requires Inv(w) && t in w.threads && w.threads[t].pc.RevokingTokens? && acc in w.threads[t].pc.accs
    requires pc == Failing || pc == TokenPc(w.threads[t].pc.final, w.threads[t].pc.accs - {acc})
    ensures Inv(Goto(KillToken(w, acc, LeasesByToken(w, acc)), t, pc)) && Acted(w, Goto(KillToken(w, acc, LeasesByToken(w, acc)), t, pc), t)
  {
    var th, m := w.threads[t], KillToken(w, acc, LeasesByToken(w, acc));
    assert ThreadInv(w, th);
    KillTokenShrinks(w, acc, LeasesByToken(w, acc), th.g);
    DueShrinks(w, m, th.g, th.pc.final);
    TokenGoneThread(w, m, th, acc);
    ShrinkStep(w, m, t, pc);
  }

  lemma TokenGoneThread(w: World, m: World, th: Thread, acc: Accessor)
    requires ThreadInv(w, th) && th.pc.RevokingTokens? && Shrinks(w, m, th.g)
    requires TokensOf(m, th.g) == TokensOf(w, th.g) - {acc}
    requires LeasesOf(m, th.g) <= LeasesOf(w, th.g) && AccountsOf(m, th.g) <= AccountsOf(w, th.g)
    ensures ThreadInv(m, th.(pc := Failing))
    ensures ThreadInv(m, th.(pc := TokenPc(th.pc.final, th.pc.accs - {acc})))
  {
  }

  lemma KeepRevokeToken(w: World, t: Tid, acc: Accessor, o: Outcome, w': World)
    requires Inv(w) && t in w.threads && DoRevokeToken(w, t, w.threads[t], acc, o) == Some(w')
    ensures Inv(w') && Acted(w, w', t)
  {
    if Applied(o) {
      TokenGone(w, t, acc, w'.threads[t].pc);
    } else {
      FailStep(w, t);
    }
  }

  lemma RoleGoneThread(w: World, m: World, th: Thread)
    requires ThreadInv(w, th) && th.pc.DeletingRole? && m == w.(roles := w.roles - {th.g})
    ensures ThreadInv(m, th.(pc := Failing)) && ThreadInv(m, th.(pc := Finishing(th.pc.final)))
  {
  }

  lemma RoleGone(w: World, t: Tid, pc: Pc)
    requires Inv(w) && t in w.threads && w.threads[t].pc.DeletingRole?
    requires pc == Failing || pc == Finishing(w.threads[t].pc.final)
    ensures Inv(Goto(w.(roles := w.roles - {w.threads[t].g}), t, pc)) && Acted(w, Goto(w.(roles := w.roles - {w.threads[t].g}), t, pc), t)
  {
    var th, m := w.threads[t], w.(roles := w.roles - {w.threads[t].g});
    assert ThreadInv(w, th);
    assert Shrinks(w, m, th.g);
    DueShrinks(w, m, th.g, th.pc.final);
    RoleGoneThread(w, m, th);
    ShrinkStep(w, m, t, pc);
  }

  lemma KeepDeleteRole(w: World, t: Tid, o: Outcome, w': World)
    requires Inv(w) && t in w.threads && DoDeleteRole(w, t, w.threads[t], o) == Some(w')
    ensures Inv(w') && Acted(w, w', t)
  {
    if Applied(o) {
      RoleGone(w, t, w'.threads[t].pc);
    } else {
      FailStep(w, t);
    }
  }

  // ---- what Vault and time do on their own ---------------------------------------------------

  lemma ThreadShrinks(w: World, m: World, g: GrantId, th: Thread)
    requires LogInv(w) && Shrinks(w, m, g) && m.roles == w.roles && ThreadInv(w, th)
    requires forall l, a :: LeasesEver(w, g) == {l} && Alive(w, g, l, a) ==> Alive(m, g, l, a)
    ensures ThreadInv(m, th)
  {
    if th.g != g {
      ShrinkFrame(w, m, g);
      ThreadFrame(w, m, th);
    }
  }

  lemma EnvironmentStep(w: World, m: World, g: GrantId)
    requires Inv(w) && Shrinks(w, m, g) && m.roles == w.roles
    requires forall l, a :: LeasesEver(w, g) == {l} && Alive(w, g, l, a) ==> Alive(m, g, l, a)
    ensures Inv(m)
  {
    ShrinkFrame(w, m, g);
    forall h ensures GrantInv(m, h) {
      if h != g {
        GrantFrame(w, m, h);
      } else {
        assert GrantInv(w, g);
      }
    }
    forall t | t in m.threads ensures ThreadInv(m, m.threads[t]) {
      ThreadShrinks(w, m, g, w.threads[t]);
    }
  }

  lemma KeepExpireLease(w: World, cred: LeaseId, recorded: bool, w': World)
    requires Inv(w) && Next(w, ExpireLease(cred, recorded)) == Some(w')
    ensures Inv(w')
  {
    var g := w.leaseLog[cred].role;
    KillShrinks(w, {cred}, g);
    forall l, a | LeasesEver(w, g) == {l} && Alive(w, g, l, a) ensures Alive(w', g, l, a) {
      assert cred in LeasesEver(w, g);
    }
    EnvironmentStep(w, w', g);
  }

  lemma KeepExpireToken(w: World, acc: Accessor, kill: set<LeaseId>, w': World)
    requires Inv(w) && Next(w, ExpireToken(acc, kill)) == Some(w')
    ensures Inv(w')
  {
    var g := w.tokenLog[acc].tag;
    KillTokenShrinks(w, acc, kill, g);
    TokenLeasesOwn(w, acc, g);
    forall l, a | LeasesEver(w, g) == {l} && Alive(w, g, l, a) ensures Alive(w', g, l, a) {
      assert a != acc ==> kill == {};
    }
    EnvironmentStep(w, w', g);
  }

  /** Nothing a thread relies on turns false as time passes. */
  lemma ThreadLater(w: World, d: real, th: Thread)
    requires ThreadInv(w, th) && d >= 0.0
    ensures ThreadInv(w.(clock := w.clock + d), th)
  {
    assert SameGrant(w, w.(clock := w.clock + d), th.g);
  }

  lemma GrantLater(w: World, d: real, h: GrantId)
    requires GrantInv(w, h) && d >= 0.0
    ensures GrantInv(w.(clock := w.clock + d), h)
  {
    assert SameGrant(w, w.(clock := w.clock + d), h);
  }

  lemma KeepTick(w: World, d: real, w': World)
    requires Inv(w) && Next(w, Tick(d)) == Some(w')
    ensures Inv(w')
  {
    assert d >= 0.0 && w' == w.(clock := w.clock + d);
    LaterStep(w, d);
  }

  lemma LaterStep(w: World, d: real)
    requires Inv(w) && d >= 0.0
    ensures Inv(w.(clock := w.clock + d))
  {
    var w' := w.(clock := w.clock + d);
    LogKept(w, w');
    assert LockInv(w');
    forall h ensures GrantInv(w', h) {
      assert GrantInv(w, h);
      GrantLater(w, d, h);
    }
    forall t | t in w'.threads ensures ThreadInv(w', w'.threads[t]) {
      assert ThreadInv(w, w.threads[t]);
      ThreadLater(w, d, w.threads[t]);
    }
  }
}
