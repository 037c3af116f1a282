/** Steps that only read, and steps that write the row, keep the invariant. */
module RowSteps {
  import opened Names
  import opened Wrappers
  import opened Protocol
  import opened Invariant
  import opened Frames

  // ---- steps that only read ------------------------------------------------------------------

  lemma ReadStep(w: World, t: Tid, pc: Pc)
    requires Inv(w) && t in w.threads && Holds(w.threads[t].pc) && Holds(pc)
    requires InSection(w.threads[t].pc) ==> InSection(pc)
    requires !pc.Entering? && !pc.Marking?
    requires ThreadInv(w, w.threads[t].(pc := pc))
    ensures Inv(Goto(w, t, pc)) && Acted(w, Goto(w, t, pc), t)
  {
    var w', th' := Goto(w, t, pc), w.threads[t].(pc := pc);
    LogKept(w, w');
    GotoActed(w, t, pc);
    ThreadFrame(w, w', th');
    GrantFrame(w, w', th'.g);
    LocalStep(w, w', t, th');
  }

  lemma GotoActed(w: World, t: Tid, pc: Pc)
    requires t in w.threads && Holds(w.threads[t].pc) && Holds(pc)
    requires (InSection(w.threads[t].pc) ==> InSection(pc)) && !pc.Entering? && !pc.Marking?
    ensures Acted(w, Goto(w, t, pc), t) && Local(w, Goto(w, t, pc), t, w.threads[t].(pc := pc))
    ensures forall h :: SameGrant(w, Goto(w, t, pc), h)
  {
  }

  /** The error path of `issue`, from any of its steps. */
  lemma AbandonStep(w: World, t: Tid, audited: bool)
    requires Inv(w) && t in w.threads && IssueOnly(w.threads[t].pc) && !w.threads[t].pc.Inserting?
    ensures Inv(Goto(w, t, Abandon(audited))) && Acted(w, Goto(w, t, Abandon(audited)), t)
  {
    assert ThreadInv(w, w.threads[t]);
    ReadStep(w, t, Abandon(audited));
  }

  /** Any step of a teardown may raise; the row then still calls for a teardown. */
  lemma FailStep(w: World, t: Tid)
    requires Inv(w) && t in w.threads && FinalOf(w.threads[t].pc).Some?
    ensures Inv(Goto(w, t, Failing)) && Acted(w, Goto(w, t, Failing), t)
  {
    assert ThreadInv(w, w.threads[t]);
    ReadStep(w, t, Failing);
  }

  lemma KeepReread(w: World, t: Tid, ok: bool, w': World)
    requires Inv(w) && t in w.threads && DoReread(w, t, w.threads[t], ok) == Some(w')
    ensures Inv(w') && Acted(w, w', t)
  {
    assert ThreadInv(w, w.threads[t]);
    ReadStep(w, t, w'.threads[t].pc);
  }

  lemma KeepFetch(w: World, t: Tid, ok: bool, w': World)
    requires Inv(w) && t in w.threads && DoFetch(w, t, w.threads[t], ok) == Some(w')
    ensures Inv(w') && Acted(w, w', t)
  {
    var th := w.threads[t];
    assert ThreadInv(w, th) && GrantInv(w, th.g);
    assert TokensOf(w, th.g) <= TokensEver(w, th.g);
    ReadStep(w, t, w'.threads[t].pc);
  }

  lemma KeepScanTokens(w: World, t: Tid, ok: bool, w': World)
    requires Inv(w) && t in w.threads && DoScanTokens(w, t, w.threads[t], ok) == Some(w')
    ensures Inv(w') && Acted(w, w', t)
  {
    assert ThreadInv(w, w.threads[t]);
    ScannedIsOwn(w, w.threads[t].g);
    if w'.threads[t].pc.Failing? {
      FailStep(w, t);
    } else {
      ReadStep(w, t, w'.threads[t].pc);
    }
  }

  lemma KeepFindAccounts(w: World, t: Tid, ok: bool, w': World)
    requires Inv(w) && t in w.threads && DoFindAccounts(w, t, w.threads[t], ok) == Some(w')
    ensures Inv(w') && Acted(w, w', t)
  {
    var th := w.threads[t];
    assert ThreadInv(w, th);
    FoundIsOwn(w, th.db, th.g);
    if w'.threads[t].pc.Failing? {
      FailStep(w, t);
    } else {
      ReadStep(w, t, w'.threads[t].pc);
    }
  }

  lemma KeepLockOut(w: World, t: Tid, account: Account, ok: bool, w': World)
    requires Inv(w) && t in w.threads && DoLockOut(w, t, w.threads[t], account, ok) == Some(w')
    ensures Inv(w') && Acted(w, w', t)
  {
    assert ThreadInv(w, w.threads[t]);
    if w'.threads[t].pc.Failing? {
      FailStep(w, t);
    } else {
      ReadStep(w, t, w'.threads[t].pc);
    }
  }

  lemma KeepListLeases(w: World, t: Tid, ok: bool, w': World)
    requires Inv(w) && t in w.threads && DoListLeases(w, t, w.threads[t], ok) == Some(w')
    ensures Inv(w') && Acted(w, w', t)
  {
    assert ThreadInv(w, w.threads[t]) && GrantInv(w, w.threads[t].g);
    if w'.threads[t].pc.Failing? {
      FailStep(w, t);
    } else {
      ReadStep(w, t, w'.threads[t].pc);
    }
  }

  lemma KeepFindAgain(w: World, t: Tid, ok: bool, w': World)
    requires Inv(w) && t in w.threads && DoFindAgain(w, t, w.threads[t], ok) == Some(w')
    ensures Inv(w') && Acted(w, w', t)
  {
    var th := w.threads[t];
    assert ThreadInv(w, th);
    FoundIsOwn(w, th.db, th.g);
    if w'.threads[t].pc.Failing? {
      FailStep(w, t);
    } else {
      ReadStep(w, t, w'.threads[t].pc);
    }
  }

  lemma KeepConfirm(w: World, t: Tid, ok: bool, w': World)
    requires Inv(w) && t in w.threads && DoConfirm(w, t, w.threads[t], ok) == Some(w')
    ensures Inv(w') && Acted(w, w', t)
  {
    assert ThreadInv(w, w.threads[t]);
    if w'.threads[t].pc.Failing? {
      FailStep(w, t);
    } else {
      ReadStep(w, t, w'.threads[t].pc);
    }
  }

  // ---- steps that write the row --------------------------------------------------------------

  /** The row of `g` changes, nothing else of it does. */
  lemma RowStep(w: World, t: Tid, pc: Pc, row: Row)
    requires Inv(w) && t in w.threads && InSection(w.threads[t].pc) && InSection(pc)
    requires Own(w, w.threads[t]) || w.threads[t].g !in w.store
    requires row.db == w.threads[t].db && !pc.Marking? && !Creates(w.threads[t].pc)
    requires if w.threads[t].g in w.store
             then row.ttl == w.store[w.threads[t].g].ttl && Allowed(w.store[w.threads[t].g].status, row.status)
                  && (w.threads[t].pc.Marking?
                      || (Engaged(w.threads[t].pc) && !Terminal(w.store[w.threads[t].g].status)))
             else row.status.Issuing? && w.threads[t].pc.Inserting?
    requires GrantInv(SetRow(w, w.threads[t].g, row), w.threads[t].g)
    requires ThreadInv(SetRow(w, w.threads[t].g, row), w.threads[t].(pc := pc))
    ensures Inv(Goto(SetRow(w, w.threads[t].g, row), t, pc)) && Acted(w, Goto(SetRow(w, w.threads[t].g, row), t, pc), t)
  {
    RowActed(w, t, pc, row);
    RowFramed(w, t, pc, row);
    LocalStep(w, Goto(SetRow(w, w.threads[t].g, row), t, pc), t, w.threads[t].(pc := pc));
  }

  lemma RowFramed(w: World, t: Tid, pc: Pc, row: Row)
    requires LogInv(w) && t in w.threads
    requires w.threads[t].g in w.store ==> row.ttl == w.store[w.threads[t].g].ttl && row.db == w.store[w.threads[t].g].db
    requires GrantInv(SetRow(w, w.threads[t].g, row), w.threads[t].g)
    requires ThreadInv(SetRow(w, w.threads[t].g, row), w.threads[t].(pc := pc))
    ensures var w', th' := Goto(SetRow(w, w.threads[t].g, row), t, pc), w.threads[t].(pc := pc);
            LogInv(w') && GrantInv(w', th'.g) && ThreadInv(w', th')
  {
    var g := w.threads[t].g;
    var m := SetRow(w, g, row);
    var w', th' := Goto(m, t, pc), w.threads[t].(pc := pc);
    assert SameGrant(m, w', g);
    ThreadFrame(m, w', th');
    GrantFrame(m, w', g);
    LogKept(w, w');
  }

  lemma RowActed(w: World, t: Tid, pc: Pc, row: Row)
    requires t in w.threads && InSection(w.threads[t].pc) && InSection(pc)
    requires row.db == w.threads[t].db && !pc.Marking? && !Creates(w.threads[t].pc)
    requires if w.threads[t].g in w.store
             then row.db == w.store[w.threads[t].g].db && row.ttl == w.store[w.threads[t].g].ttl
                  && Allowed(w.store[w.threads[t].g].status, row.status)
                  && (w.threads[t].pc.Marking?
                      || (Engaged(w.threads[t].pc) && !Terminal(w.store[w.threads[t].g].status)))
             else row.status.Issuing? && w.threads[t].pc.Inserting?
    ensures Acted(w, Goto(SetRow(w, w.threads[t].g, row), t, pc), t)
    ensures Local(w, Goto(SetRow(w, w.threads[t].g, row), t, pc), t, w.threads[t].(pc := pc))
  {
  }

  lemma InsertStep(w: World, t: Tid, row: Row)
    requires Inv(w) && t in w.threads && w.threads[t].pc.Inserting? && w.threads[t].op.Issue?
    requires w.threads[t].g !in w.store
    requires row == Row(w.threads[t].db, w.threads[t].op.ttl, Issuing, None, None, None, None)
    ensures var w' := Goto(SetRow(w, w.threads[t].g, row), t, WritingRole); Inv(w') && Acted(w, w', t)
  {
    var th := w.threads[t];
    assert ThreadInv(w, th) && GrantInv(w, th.g);
    forall a | a in w.tokenLog ensures w.tokenLog[a].tag != th.g {
      assert TokenInv(w, a);
    }
    forall l | l in w.leaseLog ensures w.leaseLog[l].role != th.g {
      assert LeaseInv(w, l);
    }
    assert TokensEver(w, th.g) == {} && LeasesEver(w, th.g) == {};
    RowStep(w, t, WritingRole, row);
  }

  lemma KeepInsertRow(w: World, t: Tid, ok: bool, w': World)
    requires Inv(w) && t in w.threads && DoInsertRow(w, t, w.threads[t], ok) == Some(w')
    ensures Inv(w') && Acted(w, w', t)
  {
    var th := w.threads[t];
    assert ThreadInv(w, th);
    if ok && th.g !in w.store {
      var row := Row(th.db, th.op.ttl, Issuing, None, None, None, None);
      assert w' == Goto(SetRow(w, th.g, row), t, WritingRole);
      InsertStep(w, t, row);
    } else {
      ReadStep(w, t, Leaving(false));
    }
  }

  lemma KeepStoreAccessor(w: World, t: Tid, ok: bool, audited: bool, w': World)
    requires Inv(w) && t in w.threads && DoStoreAccessor(w, t, w.threads[t], ok, audited) == Some(w')
    ensures Inv(w') && Acted(w, w', t)
  {
    var th := w.threads[t];
    assert ThreadInv(w, th) && GrantInv(w, th.g);
    if ok {
      RowStep(w, t, w'.threads[t].pc, w'.store[th.g]);
    } else {
      AbandonStep(w, t, audited);
    }
  }

  lemma KeepActivate(w: World, t: Tid, ok: bool, audited: bool, w': World)
    requires Inv(w) && t in w.threads && DoActivate(w, t, w.threads[t], ok, audited) == Some(w')
    ensures Inv(w') && Acted(w, w', t)
  {
    var th := w.threads[t];
    assert ThreadInv(w, th) && GrantInv(w, th.g) && LeaseInv(w, th.pc.cred);
    if ok {
      RowStep(w, t, w'.threads[t].pc, w'.store[th.g]);
    } else {
      AbandonStep(w, t, audited);
    }
  }

  lemma KeepMark(w: World, t: Tid, ok: bool, audited: bool, w': World)
    requires Inv(w) && t in w.threads && DoMark(w, t, w.threads[t], ok, audited) == Some(w')
    ensures Inv(w') && Acted(w, w', t)
  {
    var th := w.threads[t];
    assert ThreadInv(w, th) && GrantInv(w, th.g);
    if ok {
      RowStep(w, t, w'.threads[t].pc, w'.store[th.g]);
    } else {
      ReadStep(w, t, w'.threads[t].pc);
    }
  }

  lemma KeepFinish(w: World, t: Tid, ok: bool, audited: bool, w': World)
    requires Inv(w) && t in w.threads && DoFinish(w, t, w.threads[t], ok, audited) == Some(w')
    ensures Inv(w') && Acted(w, w', t)
  {
    var th := w.threads[t];
    assert ThreadInv(w, th);
    if ok {
      var pc := Leaving(audited && !th.op.Issue?);
      assert w' == Goto(SetRow(w, th.g, w.store[th.g].(status := th.pc.final)), t, pc);
      FinishStep(w, t, pc);
    } else {
      ReadStep(w, t, w'.threads[t].pc);
    }
  }

  lemma FinishStep(w: World, t: Tid, pc: Pc)
    requires Inv(w) && t in w.threads && w.threads[t].pc.Finishing? && Own(w, w.threads[t])
    requires pc == Leaving(false) || (pc == Leaving(true) && !w.threads[t].op.Issue?)
    ensures var g := w.threads[t].g;
            var w' := Goto(SetRow(w, g, w.store[g].(status := w.threads[t].pc.final)), t, pc);
            Inv(w') && Acted(w, w', t)
  {
    var th := w.threads[t];
    assert ThreadInv(w, th) && GrantInv(w, th.g);
    FinishedRow(w, th, pc);
    RowStep(w, t, pc, w.store[th.g].(status := th.pc.final));
  }

  lemma FinishedRow(w: World, th: Thread, pc: Pc)
    requires ThreadInv(w, th) && GrantInv(w, th.g) && th.pc.Finishing? && Own(w, th)
    requires pc == Leaving(false) || (pc == Leaving(true) && !th.op.Issue?)
    ensures var m := SetRow(w, th.g, w.store[th.g].(status := th.pc.final));
            GrantInv(m, th.g) && ThreadInv(m, th.(pc := pc))
  {
  }

  lemma KeepMarkFailed(w: World, t: Tid, ok: bool, w': World)
    requires Inv(w) && t in w.threads && DoMarkFailed(w, t, w.threads[t], ok) == Some(w')
    ensures Inv(w') && Acted(w, w', t)
  {
    var th := w.threads[t];
    assert ThreadInv(w, th) && GrantInv(w, th.g);
    if ok {
      RowStep(w, t, w'.threads[t].pc, w'.store[th.g]);
    } else {
      ReadStep(w, t, w'.threads[t].pc);
    }
  }
}
