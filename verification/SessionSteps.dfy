/** Every step keeps the session invariant. */
module SessionSteps {
  import opened Wrappers
  import opened Sessions

  /** What a step never takes back: history grows, a session that ended does not come back, and the
    * stamps of a row move forward. */
  ghost predicate Later(w: State, w': State) {
    && w.now <= w'.now && w.known <= w'.known && w.minted <= w'.minted && w.revoked <= w'.revoked && w.lost <= w'.lost
    && w.sightings <= w'.sightings && w.living <= w'.living && w.fetched <= w'.fetched && w.stamps <= w'.stamps
    && w.accepted <= w'.accepted && w.misses <= w'.misses && w.deaths <= w'.deaths && w.touches <= w'.touches
    && (forall sid :: sid in w.owner ==> sid in w'.owner && w'.owner[sid] == w.owner[sid])
    && (forall sid :: sid in w.last ==> sid in w'.last && w.last[sid].at <= w'.last[sid].at)
    && (forall sid :: sid in w.known && sid !in w.rows ==> sid !in w'.rows)
    && forall sid :: sid in w.owner && sid in w'.rows ==>
         && sid in w.rows && w.rows[sid].lastSeen <= w'.rows[sid].lastSeen
         && w.rows[sid].lastCheck <= w'.rows[sid].lastCheck
  }

  lemma LaterOn(a: State, b: State, c: State)
    requires Later(a, b) && Later(b, c)
    ensures Later(a, c)
  {
  }

  // ---- what stays true of what did not change ----------------------------------------------------

  lemma ReadRowKept(w: State, w': State, sid: Sid, s: Session)
    requires ReadRowInv(w, sid, s) && Later(w, w')
    ensures ReadRowInv(w', sid, s)
  {
    var x :| x in w.stamps && x.sid == sid && x.at == s.lastCheck;
    assert x in w'.stamps;
  }

  lemma LookKept(w: State, w': State, m: Mind, sid: Sid)
    requires LookInv(w, m, sid) && Later(w, w')
    ensures LookInv(w', m, sid)
  {
    if sid in m.looked && m.looked[sid].row.Some? {
      ReadRowKept(w, w', sid, m.looked[sid].row.value);
    }
  }

  lemma MindKept(w: State, w': State, m: Mind)
    requires MindOk(w, m) && Later(w, w')
    ensures MindOk(w', m)
  {
    forall sid ensures LookInv(w', m, sid) {
      LookKept(w, w', m, sid);
    }
  }

  /** What a thread has read and judged does not depend on the rest of its mind. */
  lemma LooksKept(w: State, w': State, m: Mind, m': Mind)
    requires MindOk(w, m) && Later(w, w') && m'.looked == m.looked && m'.judged == m.judged && m'.since == m.since
    ensures forall sid :: LookInv(w', m', sid)
  {
    forall sid ensures LookInv(w', m', sid) {
      LookKept(w, w', m, sid);
    }
  }

  lemma StampKept(w: State, w': State, x: Stamp)
    requires StampInv(w, x) && x in w.stamps && Later(w, w')
    ensures StampInv(w', x)
  {
  }

  lemma AcceptKept(w: State, w': State, a: Acceptance)
    requires AcceptInv(w, a) && a in w.accepted && Later(w, w')
    ensures AcceptInv(w', a)
  {
    var c :| c <= a.at <= c + SESSION_IDLE && (a.sid, c) in w.touches;
    assert (a.sid, c) in w'.touches;
    if a.own.None? {
      var x :| x in w.stamps && x.sid == a.sid && x.at <= a.at <= x.at + SESSION_RECHECK;
      assert x in w'.stamps;
    }
  }

  /** Nothing new was stamped or accepted. */
  lemma HistoryKept(w: State, w': State)
    requires Inv(w) && Later(w, w') && w'.stamps == w.stamps && w'.accepted == w.accepted
    ensures (forall x :: StampInv(w', x)) && (forall a :: AcceptInv(w', a))
  {
    forall x ensures StampInv(w', x) {
      if x in w.stamps {
        assert StampInv(w, x);
        StampKept(w, w', x);
      }
    }
    forall a ensures AcceptInv(w', a) {
      if a in w.accepted {
        assert AcceptInv(w, a);
        AcceptKept(w, w', a);
      }
    }
  }

  /** Only the mind of `t` changed. */
  lemma MindsKept(w: State, w': State, t: Tid)
    requires Inv(w) && Later(w, w') && w'.threads - {t} == w.threads - {t} && MindInv(w', t)
    ensures forall u :: MindInv(w', u)
  {
    forall u ensures MindInv(w', u) {
      if u in w'.threads && u != t {
        assert u in w'.threads - {t} && u in w.threads - {t};
        assert MindInv(w, u) && w'.threads[u] == w.threads[u];
        MindKept(w, w', w'.threads[u]);
      }
    }
  }

  /** Between the two states exactly the tokens `out` left the table. */
  ghost predicate LeftGrows(w: State, w': State, out: set<Token>) {
    forall token :: LeftTable(w', token) <==> LeftTable(w, token) || token in out
  }

  /** Replacing one thread's debts moves tokens between debts and history as the step says. */
  lemma LeftAfterPut(w: State, w': State, t: Tid, out: set<Token>)
    requires t in w.threads && t in w'.threads && w'.threads - {t} == w.threads - {t}
    requires forall token :: (token in w.revoked || token in w.lost || token in w.threads[t].owes || token in out)
                        <==> (token in w'.revoked || token in w'.lost || token in w'.threads[t].owes)
    requires w.revoked <= w'.revoked && w'.lost == w.lost
    ensures LeftGrows(w, w', out)
  {
    assert forall u :: u != t ==> (u in w.threads <==> u in w.threads - {t});
    assert forall u :: u != t ==> (u in w'.threads <==> u in w'.threads - {t});
    assert forall u :: u != t && u in w.threads ==> w'.threads[u] == (w'.threads - {t})[u] == w.threads[u];
  }

  predicate SameTable(w: State, w': State) {
    w'.rows == w.rows && w'.owner == w.owner && w'.last == w.last && w'.stamps == w.stamps && w'.accepted == w.accepted
  }

  lemma TableKept(w: State, w': State)
    requires Inv(w) && Later(w, w') && SameTable(w, w') && LeftGrows(w, w', {})
    ensures (forall sid :: RowInv(w', sid)) && (forall sid :: OwnerInv(w', sid)) && DistinctTokens(w')
  {
    forall sid ensures RowInv(w', sid) && OwnerInv(w', sid) {
      assert RowInv(w, sid) && OwnerInv(w, sid);
    }
  }

  /** Minted tokens that are in nobody's session stay so. */
  lemma DrawnKept(w: State, w': State, t: Tid)
    requires Inv(w) && w'.owner == w.owner && w.minted <= w'.minted && LeftGrows(w, w', {})
    requires w'.threads - {t} == w.threads - {t}
    requires t in w'.threads ==> w'.threads[t].drawn == None || (t in w.threads && w'.threads[t].drawn == w.threads[t].drawn)
    ensures forall u :: DrawnInv(w', u)
  {
    forall u ensures DrawnInv(w', u) {
      assert DrawnInv(w, u);
      assert u != t ==> (u in w.threads <==> u in w.threads - {t});
      forall v | v in w'.threads && v != t ensures v in w.threads && w'.threads[v] == w.threads[v] {
        assert v in w'.threads - {t};
      }
    }
  }

  /** A step of `t` that leaves the table, the stamps and the tokens out of it alone. */
  lemma QuietStep(w: State, w': State, t: Tid)
    requires Inv(w) && Later(w, w') && SameTable(w, w') && LeftGrows(w, w', {})
    requires w'.minted == w.minted && w'.revoked <= w.minted && w'.lost <= w.minted
    requires w'.threads - {t} == w.threads - {t} && MindInv(w', t)
    requires t in w'.threads ==> w'.threads[t].drawn == None || (t in w.threads && w'.threads[t].drawn == w.threads[t].drawn)
    requires forall x :: x in w'.sightings ==> x.1 <= w'.now
    ensures Inv(w')
  {
    HistoryKept(w, w');
    MindsKept(w, w', t);
    TableKept(w, w');
    DrawnKept(w, w', t);
  }

  // ---- step by step ----------------------------------------------------------------------------

  lemma KeepClock(w: State, e: Event, w': State)
    requires Inv(w) && Next(w, e) == Some(w') && (e.Tick? || e.SetAdmins? || e.Die?)
    ensures Inv(w') && Later(w, w')
  {
    var t: Tid := 0;
    assert t in w.threads ==> MindInv(w, t);
    if t in w.threads {
      MindKept(w, w', w.threads[t]);
    }
    QuietStep(w, w', t);
  }

  lemma KeepCrash(w: State, w': State)
    requires Inv(w) && Next(w, Crash) == Some(w')
    ensures Inv(w') && Later(w, w')
  {
    forall token | token in w'.lost ensures token in w.minted {
      if token !in w.lost {
        var t :| t in w.threads && token in w.threads[t].owes;
        assert MindInv(w, t);
      }
    }
    assert forall token :: token in AllOwed(w) <==> exists t :: t in w.threads && token in w.threads[t].owes;
    HistoryKept(w, w');
    TableKept(w, w');
  }

  lemma KeepBegin(w: State, t: Tid, w': State)
    requires Inv(w) && Next(w, Begin(t)) == Some(w')
    ensures Inv(w') && Later(w, w')
  {
    assert w'.threads - {t} == w.threads - {t};
    assert forall u :: u in w.threads ==> u != t && u in w'.threads && w'.threads[u] == w.threads[u];
    QuietStep(w, w', t);
  }

  lemma KeepFinish(w: State, t: Tid, w': State)
    requires Inv(w) && Next(w, Finish(t)) == Some(w')
    ensures Inv(w') && Later(w, w')
  {
    assert MindInv(w, t);
    assert forall u :: u in w'.threads ==> u in w.threads && w'.threads[u] == w.threads[u];
    assert forall u :: u in w.threads && u != t ==> u in w'.threads;
    assert w'.threads - {t} == w.threads - {t};
    QuietStep(w, w', t);
  }

  lemma KeepRevoke(w: State, t: Tid, token: Token, w': State)
    requires Inv(w) && Next(w, Revoke(t, token)) == Some(w')
    ensures Inv(w') && Later(w, w')
  {
    assert MindInv(w, t);
    LeftAfterPut(w, w', t, {});
    var m := w.threads[t];
    MindKept(w, w', m);
    assert forall sid :: LookInv(w', m, sid) ==> LookInv(w', w'.threads[t], sid);
    QuietStep(w, w', t);
  }

  lemma KeepLooks(w: State, e: Event, w': State)
    requires Inv(w) && Next(w, e) == Some(w') && (e.See? || e.LookUp? || e.Miss? || e.Bury?)
    ensures Inv(w') && Later(w, w')
  {
    assert MindInv(w, e.t);
    LeftAfterPut(w, w', e.t, {});
    LooksKept(w, w', w.threads[e.t], w'.threads[e.t]);
    QuietStep(w, w', e.t);
  }

  lemma KeepJudge(w: State, t: Tid, sid: Sid, w': State)
    requires Inv(w) && Next(w, Judge(t, sid)) == Some(w')
    ensures Inv(w') && Later(w, w')
  {
    assert MindInv(w, t);
    LeftAfterPut(w, w', t, {});
    var m := w.threads[t];
    MindKept(w, w', m);
    forall x ensures LookInv(w', w'.threads[t], x) {
      assert LookInv(w', m, x);
    }
    QuietStep(w, w', t);
  }

  lemma KeepRead(w: State, t: Tid, sid: Sid, w': State)
    requires Inv(w) && Next(w, Read(t, sid)) == Some(w')
    ensures Inv(w') && Later(w, w')
  {
    assert MindInv(w, t) && RowInv(w, sid) && OwnerInv(w, sid);
    LeftAfterPut(w, w', t, {});
    var m := w.threads[t];
    MindKept(w, w', m);
    forall x ensures LookInv(w', w'.threads[t], x) {
      assert LookInv(w', m, x);
    }
    QuietStep(w, w', t);
  }

  lemma KeepDiscard(w: State, t: Tid, w': State)
    requires Inv(w) && Next(w, Discard(t)) == Some(w')
    ensures Inv(w') && Later(w, w')
  {
    var m := w.threads[t];
    LeftAfterPut(w, w', t, {m.drawn.value.1});
    assert DrawnInv(w, t) && MindInv(w, t);
    DiscardKeepsTokens(w, t, w');
    HistoryKept(w, w');
    LooksKept(w, w', m, w'.threads[t]);
    MindsKept(w, w', t);
  }

  lemma DiscardKeepsTokens(w: State, t: Tid, w': State)
    requires Inv(w) && Next(w, Discard(t)) == Some(w') && LeftGrows(w, w', {w.threads[t].drawn.value.1})
    ensures (forall sid :: RowInv(w', sid)) && (forall sid :: OwnerInv(w', sid)) && (forall u :: DrawnInv(w', u))
  {
    assert DrawnInv(w, t);
    forall sid ensures RowInv(w', sid) && OwnerInv(w', sid) {
      assert RowInv(w, sid) && OwnerInv(w, sid);
    }
    forall u ensures DrawnInv(w', u) {
      assert DrawnInv(w, u);
    }
  }

  lemma KeepMint(w: State, t: Tid, user: User, token: Token, w': State)
    requires Inv(w) && Next(w, Mint(t, user, token)) == Some(w')
    ensures Inv(w') && Later(w, w')
  {
    LeftAfterPut(w, w', t, {});
    var m := w.threads[t];
    assert MindInv(w, t);
    NotYetOut(w, token);
    HistoryKept(w, w');
    LooksKept(w, w', m, w'.threads[t]);
    MindsKept(w, w', t);
    TableKept(w, w');
    MintKeepsDrawn(w, t, user, token, w');
  }

  lemma NotYetOut(w: State, token: Token)
    requires Inv(w) && token !in w.minted
    ensures !LeftTable(w, token)
  {
    forall u | u in w.threads ensures token !in w.threads[u].owes {
      assert MindInv(w, u);
    }
  }

  lemma MintKeepsDrawn(w: State, t: Tid, user: User, token: Token, w': State)
    requires Inv(w) && Next(w, Mint(t, user, token)) == Some(w') && LeftGrows(w, w', {}) && !LeftTable(w, token)
    ensures forall u :: DrawnInv(w', u)
  {
    forall sid | sid in w.owner ensures w.owner[sid].token != token {
      assert OwnerInv(w, sid);
    }
    forall u | u in w.threads && w.threads[u].drawn.Some? ensures w.threads[u].drawn.value.1 != token {
      assert DrawnInv(w, u);
    }
    forall u ensures DrawnInv(w', u) {
      assert DrawnInv(w, u);
    }
  }

  lemma KeepCreate(w: State, t: Tid, sid: Sid, w': State)
    requires Inv(w) && Next(w, Create(t, sid)) == Some(w')
    ensures Inv(w') && Later(w, w')
  {
    LeftAfterPut(w, w', t, {});
    assert DrawnInv(w, t) && MindInv(w, t);
    assert sid !in w.owner && sid !in w.rows && sid !in w.last by {
      assert RowInv(w, sid) && OwnerInv(w, sid);
    }
    CreateKeepsTable(w, t, sid, w');
    CreateKeepsHistory(w, t, sid, w');
    CreateKeepsDrawn(w, t, sid, w');
    var m := w.threads[t];
    MindKept(w, w', m);
    assert forall x :: LookInv(w', m, x) ==> LookInv(w', w'.threads[t], x);
    MindsKept(w, w', t);
  }

  lemma CreateKeepsDrawn(w: State, t: Tid, sid: Sid, w': State)
    requires Inv(w) && Next(w, Create(t, sid)) == Some(w') && LeftGrows(w, w', {})
    ensures forall u :: DrawnInv(w', u)
  {
    assert DrawnInv(w, t);
    forall u ensures DrawnInv(w', u) {
      assert DrawnInv(w, u);
    }
  }

  lemma CreateKeepsTable(w: State, t: Tid, sid: Sid, w': State)
    requires Inv(w) && Next(w, Create(t, sid)) == Some(w') && LeftGrows(w, w', {})
    requires sid !in w.owner && sid !in w.rows && sid !in w.last
    ensures (forall x :: RowInv(w', x)) && (forall x :: OwnerInv(w', x)) && DistinctTokens(w') && Later(w, w')
  {
    assert DrawnInv(w, t) && MindInv(w, t);
    forall x ensures RowInv(w', x) && OwnerInv(w', x) {
      assert RowInv(w, x) && OwnerInv(w, x);
    }
  }

  lemma CreateKeepsHistory(w: State, t: Tid, sid: Sid, w': State)
    requires Inv(w) && Next(w, Create(t, sid)) == Some(w') && Later(w, w')
    ensures (forall x :: StampInv(w', x)) && (forall a :: AcceptInv(w', a))
  {
    assert MindInv(w, t);
    forall x ensures StampInv(w', x) {
      if x in w.stamps {
        assert StampInv(w, x);
        StampKept(w, w', x);
      }
    }
    forall a ensures AcceptInv(w', a) {
      if a in w.accepted {
        assert AcceptInv(w, a);
        AcceptKept(w, w', a);
      }
    }
  }

  lemma KeepTouch(w: State, t: Tid, sid: Sid, checked: bool, w': State)
    requires Inv(w) && Next(w, Touch(t, sid, checked)) == Some(w')
    ensures Inv(w') && Later(w, w')
  {
    assert MindInv(w, t) && LookInv(w, w.threads[t], sid) && OwnerInv(w, sid) && RowInv(w, sid);
    assert LeftGrows(w, w', {});
    TouchKeepsTable(w, t, sid, checked, w');
    TouchKeepsHistory(w, t, sid, checked, w');
    MindKept(w, w', w.threads[t]);
    MindsKept(w, w', t);
    DrawnKept(w, w', t);
  }

  lemma TouchKeepsTable(w: State, t: Tid, sid: Sid, checked: bool, w': State)
    requires Inv(w) && Next(w, Touch(t, sid, checked)) == Some(w') && LeftGrows(w, w', {})
    ensures (forall x :: RowInv(w', x)) && (forall x :: OwnerInv(w', x)) && DistinctTokens(w') && Later(w, w')
  {
    assert RowInv(w, sid) && OwnerInv(w, sid);
    forall x ensures RowInv(w', x) && OwnerInv(w', x) {
      assert RowInv(w, x) && OwnerInv(w, x);
    }
  }

  lemma TouchKeepsHistory(w: State, t: Tid, sid: Sid, checked: bool, w': State)
    requires Inv(w) && Next(w, Touch(t, sid, checked)) == Some(w') && Later(w, w')
    ensures (forall x :: StampInv(w', x)) && (forall a :: AcceptInv(w', a))
  {
    assert MindInv(w, t) && LookInv(w, w.threads[t], sid);
    forall x ensures StampInv(w', x) {
      if x in w.stamps {
        assert StampInv(w, x);
        StampKept(w, w', x);
      }
    }
    forall a ensures AcceptInv(w', a) {
      if a in w.accepted {
        assert AcceptInv(w, a);
        AcceptKept(w, w', a);
      }
    }
  }

  lemma KeepAccept(w: State, t: Tid, sid: Sid, w': State)
    requires Inv(w) && Next(w, Accept(t, sid)) == Some(w')
    ensures Inv(w') && Later(w, w')
  {
    assert MindInv(w, t) && LookInv(w, w.threads[t], sid);
    assert LeftGrows(w, w', {});
    forall x ensures StampInv(w', x) {
      assert StampInv(w, x);
    }
    forall a ensures AcceptInv(w', a) {
      if a in w.accepted {
        assert AcceptInv(w, a);
        AcceptKept(w, w', a);
      } else if a in w'.accepted {
        NewAcceptance(w, t, sid);
        AcceptKept(w.(accepted := w'.accepted), w', a);
      }
    }
    forall x ensures RowInv(w', x) && OwnerInv(w', x) {
      assert RowInv(w, x) && OwnerInv(w, x);
    }
    MindKept(w, w', w.threads[t]);
    MindsKept(w, w', t);
    DrawnKept(w, w', t);
  }

  lemma NewAcceptance(w: State, t: Tid, sid: Sid)
    requires Inv(w) && t in w.threads && DoAccept(w, t, sid).Some?
    ensures var w' := DoAccept(w, t, sid).value;
            forall a :: a in w'.accepted && a !in w.accepted ==> AcceptInv(w', a)
  {
    var m := w.threads[t];
    assert MindInv(w, t) && LookInv(w, m, sid);
    var s, at := m.looked[sid].row.value, m.judged[sid];
    assert (sid, s.lastSeen) in w.touches && s.lastSeen <= at;
    if at - s.lastCheck <= SESSION_RECHECK {
      var x :| x in w.stamps && x.sid == sid && x.at == s.lastCheck;
    } else {
      assert m.saw.value in w.sightings && m.heard.value in w.living;
    }
  }

  /** Rows leave together with their tokens, and only tokens of rows that are gone are owed. */
  lemma RemoveKeeps(w: State, w': State, t: Tid, gone: set<Sid>, out: set<Token>)
    requires Inv(w) && t in w.threads && gone <= w.rows.Keys
    requires w' == Put(w.(rows := w.rows - gone), t, w.threads[t].(owes := w.threads[t].owes + out))
    requires forall sid :: sid in gone ==> w.rows[sid].token in out
    requires forall token :: token in out ==> Former(w, gone, token)
    ensures Inv(w') && Later(w, w')
  {
    LeftAfterPut(w, w', t, out);
    RemoveKeepsTable(w, w', gone, out);
    HistoryKept(w, w');
    assert MindInv(w, t);
    FormersAreMinted(w, gone, out);
    LooksKept(w, w', w.threads[t], w'.threads[t]);
    MindsKept(w, w', t);
    forall u ensures DrawnInv(w', u) {
      assert DrawnInv(w, u);
    }
  }

  lemma FormersAreMinted(w: State, gone: set<Sid>, out: set<Token>)
    requires Inv(w) && forall token :: token in out ==> Former(w, gone, token)
    ensures out <= w.minted
  {
    forall token | token in out ensures token in w.minted {
      var former :| former in w.owner && w.owner[former].token == token && (former in gone || former !in w.rows);
      assert OwnerInv(w, former);
    }
  }

  lemma RemoveKeepsTable(w: State, w': State, gone: set<Sid>, out: set<Token>)
    requires Inv(w) && w'.rows == w.rows - gone && gone <= w.rows.Keys && LeftGrows(w, w', out)
    requires w' == w.(rows := w'.rows, threads := w'.threads)
    requires forall sid :: sid in gone ==> w.rows[sid].token in out
    requires forall token :: token in out ==> Former(w, gone, token)
    ensures (forall x :: RowInv(w', x)) && (forall x :: OwnerInv(w', x)) && DistinctTokens(w') && Later(w, w')
  {
    forall sid ensures RowInv(w', sid) && OwnerInv(w', sid) {
      assert RowInv(w, sid) && OwnerInv(w, sid);
      if sid in w.owner && w.owner[sid].token in out {
        var former :| former in w.owner && w.owner[former].token == w.owner[sid].token && (former in gone || former !in w.rows);
      }
    }
  }

  /** A token whose session is out of the table once `gone` is. */
  ghost predicate Former(w: State, gone: set<Sid>, token: Token) {
    exists sid :: sid in w.owner && w.owner[sid].token == token && (sid in gone || sid !in w.rows)
  }

  lemma KeepDrop(w: State, t: Tid, sid: Sid, w': State)
    requires Inv(w) && Next(w, Drop(t, sid)) == Some(w')
    ensures Inv(w') && Later(w, w')
  {
    var m := w.threads[t];
    var gone := if sid in w.rows then {sid} else {};
    var out := if m.looked[sid].row.Some? then {m.looked[sid].row.value.token} else {};
    assert MindInv(w, t) && LookInv(w, m, sid) && RowInv(w, sid);
    assert w.rows - gone == w.rows - {sid};
    RemoveKeeps(w, w', t, gone, out);
  }

  lemma KeepPurge(w: State, t: Tid, w': State)
    requires Inv(w) && Next(w, Purge(t)) == Some(w')
    ensures Inv(w') && Later(w, w')
  {
    var out := set sid | sid in Old(w) :: w.rows[sid].token;
    forall token | token in out ensures Former(w, Old(w), token) {
      var sid :| sid in Old(w) && w.rows[sid].token == token;
      assert RowInv(w, sid);
      assert w.owner[sid].token == token;
    }
    RemoveKeeps(w, w', t, Old(w), out);
  }

  lemma Keep(w: State, e: Event, w': State)
    requires Inv(w) && Next(w, e) == Some(w')
    ensures Inv(w') && Later(w, w')
  {
    match e
    case Begin(t) => KeepBegin(w, t, w');
    case Finish(t) => KeepFinish(w, t, w');
    case Read(t, sid) => KeepRead(w, t, sid, w');
    case Judge(t, sid) => KeepJudge(w, t, sid, w');
    case See(_, _) => KeepLooks(w, e, w');
    case LookUp(_, _) => KeepLooks(w, e, w');
    case Miss(_, _) => KeepLooks(w, e, w');
    case Bury(_, _) => KeepLooks(w, e, w');
    case Accept(t, sid) => KeepAccept(w, t, sid, w');
    case Drop(t, sid) => KeepDrop(w, t, sid, w');
    case Touch(t, sid, checked) => KeepTouch(w, t, sid, checked, w');
    case Purge(t) => KeepPurge(w, t, w');
    case Revoke(t, token) => KeepRevoke(w, t, token, w');
    case Mint(t, user, token) => KeepMint(w, t, user, token, w');
    case Discard(t) => KeepDiscard(w, t, w');
    case Create(t, sid) => KeepCreate(w, t, sid, w');
    case Crash => KeepCrash(w, w');
    case _ => KeepClock(w, e, w');
  }
}
