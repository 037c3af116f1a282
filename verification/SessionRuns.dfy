/** What holds over whole runs of the session code. */
module SessionRuns {
  import opened Wrappers
  import opened Sessions
  import opened SessionSteps

  lemma {:induction false} RunKeeps(w: State, es: seq<Event>)
    requires Inv(w) && Run(w, es).Some?
    ensures Inv(Run(w, es).value) && Later(w, Run(w, es).value)
    decreases |es|
  {
    if es != [] {
      var next := Next(w, es[0]).value;
      Keep(w, es[0], next);
      RunKeeps(next, es[1..]);
      LaterOn(w, next, Run(next, es[1..]).value);
    }
  }

  lemma ReachableInv(w: State)
    requires Reachable(w)
    ensures Inv(w)
  {
    var start, es :| Empty(start) && Run(start, es) == Some(w);
    assert Inv(start);
    RunKeeps(start, es);
  }

  lemma {:induction false} RunOn(w: State, es: seq<Event>, m: State, fs: seq<Event>)
    requires Run(w, es) == Some(m)
    ensures Run(w, es + fs) == Run(m, fs)
    decreases |es|
  {
    if es == [] {
      assert es + fs == fs;
    } else {
      assert (es + fs)[1..] == es[1..] + fs;
      RunOn(Next(w, es[0]).value, es[1..], m, fs);
    }
  }

  // ---- tokens ------------------------------------------------------------------------------------

  /** Every token a row ever held is still in its row, or is owed by a running request, or was passed
    * to revocation, or was dropped; and a token still in a row is none of the other three. */
  lemma TokensAreAccountedFor(w: State, sid: Sid)
    requires Reachable(w) && sid in w.owner
    ensures sid in w.rows ==> w.rows[sid].token == w.owner[sid].token
    ensures sid in w.rows <==> !LeftTable(w, w.owner[sid].token)
  {
    ReachableInv(w);
    assert RowInv(w, sid) && OwnerInv(w, sid);
  }

  /** A crash, or a request that ends owing, is the only way to drop a token. */
  predicate CarefulEvent(w: State, e: Event) {
    !e.Crash? && (e.Finish? ==> e.t in w.threads && w.threads[e.t].owes == {})
  }

  /** An event of anybody but `t` that drops no token. */
  predicate Harmless(w: State, e: Event, t: Tid) {
    CarefulEvent(w, e) && (e.Tick? || e.SetAdmins? || e.Die? || e.t != t)
  }

  lemma HarmlessKeepsMind(w: State, e: Event, w': State, t: Tid)
    requires t in w.threads && Harmless(w, e, t) && Next(w, e) == Some(w')
    ensures t in w'.threads && w'.threads[t] == w.threads[t]
  {
  }

  ghost predicate Careful(w: State, es: seq<Event>)
    requires Run(w, es).Some?
    decreases |es|
  {
    es == [] || (CarefulEvent(w, es[0]) && Careful(Next(w, es[0]).value, es[1..]))
  }

  lemma {:induction false} CarefulOn(w: State, es: seq<Event>, m: State, e: Event)
    requires Run(w, es) == Some(m) && Careful(w, es) && Next(m, e).Some? && CarefulEvent(m, e)
    ensures Run(w, es + [e]) == Next(m, e) && Careful(w, es + [e])
    decreases |es|
  {
    RunOn(w, es, m, [e]);
    assert [e][1..] == [];
    if es == [] {
      assert es + [e] == [e];
    } else {
      assert (es + [e])[1..] == es[1..] + [e];
      CarefulOn(Next(w, es[0]).value, es[1..], m, e);
    }
  }

  lemma {:induction false} NothingIsDropped(w: State, es: seq<Event>)
    requires Run(w, es).Some? && Careful(w, es)
    ensures Run(w, es).value.lost == w.lost
    decreases |es|
  {
    if es != [] {
      NothingIsDropped(Next(w, es[0]).value, es[1..]);
    }
  }

  /** In a careful run, when nobody is running, a stored token is in a row or was passed to revocation. */
  lemma CarefulRunsRevoke(start: State, es: seq<Event>, w: State, sid: Sid)
    requires Empty(start) && Run(start, es) == Some(w) && Careful(start, es) && w.threads == map[]
    requires sid in w.owner
    ensures sid in w.rows <==> w.owner[sid].token !in w.revoked
    ensures sid !in w.rows <==> w.owner[sid].token in w.revoked
  {
    NothingIsDropped(start, es);
    TokensAreAccountedFor(w, sid);
  }

  /** A session that ended never comes back, and its id is never given out again. */
  lemma EndedForGood(w: State, es: seq<Event>, sid: Sid)
    requires Reachable(w) && Run(w, es).Some? && sid in w.known && sid !in w.rows
    ensures sid !in Run(w, es).value.rows
  {
    ReachableInv(w);
    RunKeeps(w, es);
  }

  // ---- tokens of logins that failed ----------------------------------------------------------------

  /** A token that was minted but is in no session and in nobody's hands. */
  ghost predicate Abandoned(w: State, token: Token) {
    && token in w.minted && !LeftTable(w, token)
    && (forall sid :: sid in w.owner ==> w.owner[sid].token != token)
    && forall t :: t in w.threads && w.threads[t].drawn.Some? ==> w.threads[t].drawn.value.1 != token
  }

  /** The request of thread `t` ends holding `token`. */
  predicate EndsHolding(w: State, e: Event, token: Token) {
    e.Finish? && e.t in w.threads && w.threads[e.t].drawn.Some? && w.threads[e.t].drawn.value.1 == token
  }

  /** A crash cuts off a request that holds `token`. */
  ghost predicate CutsOff(w: State, e: Event, token: Token) {
    e.Crash? && exists t :: t in w.threads && w.threads[t].drawn.Some? && w.threads[t].drawn.value.1 == token
  }

  /** A token is abandoned by the end or the crash of the request that holds it, and in no other way; and
    * an abandoned token stays so. */
  lemma AbandonedStep(w: State, e: Event, w': State, token: Token)
    requires Inv(w) && Next(w, e) == Some(w')
    ensures Abandoned(w', token) <==> Abandoned(w, token) || EndsHolding(w, e, token) || CutsOff(w, e, token)
  {
    if Abandoned(w, token) {
      StaysAbandoned(w, e, w', token);
    } else if EndsHolding(w, e, token) {
      HolderEnds(w, e.t, w', token);
    } else if CutsOff(w, e, token) {
      HolderCrashes(w, w', token);
    } else if Abandoned(w', token) {
      NotOtherwise(w, e, w', token);
    }
  }

  lemma StaysAbandoned(w: State, e: Event, w': State, token: Token)
    requires Inv(w) && Abandoned(w, token) && Next(w, e) == Some(w')
    ensures Abandoned(w', token)
  {
    if e.Purge? {
      forall sid | sid in w.rows ensures w.rows[sid].token != token {
        assert RowInv(w, sid) && w.owner[sid].token == w.rows[sid].token;
      }
    } else if e.Drop? {
      assert MindInv(w, e.t) && LookInv(w, w.threads[e.t], e.sid);
    } else if e.Crash? {
      assert token !in AllOwed(w);
    }
    StillAbandoned(w, e, w', token);
  }

  lemma HolderEnds(w: State, t: Tid, w': State, token: Token)
    requires Inv(w) && Next(w, Finish(t)) == Some(w') && EndsHolding(w, Finish(t), token)
    ensures Abandoned(w', token)
  {
    assert DrawnInv(w, t);
    assert forall u :: u in w'.threads ==> u in w.threads && u != t && w'.threads[u] == w.threads[u];
  }

  lemma HolderCrashes(w: State, w': State, token: Token)
    requires Inv(w) && Next(w, Crash) == Some(w') && CutsOff(w, Crash, token)
    ensures Abandoned(w', token)
  {
    var t :| t in w.threads && w.threads[t].drawn.Some? && w.threads[t].drawn.value.1 == token;
    assert DrawnInv(w, t);
    assert token !in AllOwed(w);
  }

  lemma NotOtherwise(w: State, e: Event, w': State, token: Token)
    requires Inv(w) && Next(w, e) == Some(w') && Abandoned(w', token)
    requires !EndsHolding(w, e, token) && !CutsOff(w, e, token)
    ensures Abandoned(w, token)
  {
    Keep(w, e, w');
    assert e.Mint? ==> e.t in w'.threads && w'.threads[e.t].drawn == Some((e.user, e.token));
    assert token in w.minted;
    OutStaysOut(w, e, w', token);
    forall t | t in w.threads && w.threads[t].drawn.Some? ensures w.threads[t].drawn.value.1 != token {
      DrawnMoves(w, e, w', t);
    }
  }

  /** What left the table, or is about to, does not come back into hand. */
  lemma OutStaysOut(w: State, e: Event, w': State, token: Token)
    requires Inv(w) && Next(w, e) == Some(w') && !LeftTable(w', token)
    ensures !LeftTable(w, token)
  {
    forall t | t in w.threads ensures token !in w.threads[t].owes {
      assert e.Crash? ==> w.threads[t].owes <= AllOwed(w);
      assert t in w'.threads ==> w.threads[t].owes <= w'.threads[t].owes + w'.revoked;
    }
  }

  /** A token in hand stays there, or goes to a session or to revocation, unless its request ends. */
  lemma DrawnMoves(w: State, e: Event, w': State, t: Tid)
    requires Next(w, e) == Some(w') && t in w.threads && w.threads[t].drawn.Some?
    ensures var token := w.threads[t].drawn.value.1;
            || EndsHolding(w, e, token) || CutsOff(w, e, token)
            || (t in w'.threads && w'.threads[t].drawn == w.threads[t].drawn)
            || token in w'.revoked || exists sid :: sid in w'.owner && w'.owner[sid].token == token
  {
    if e.Create? && e.t == t {
      assert w'.owner[e.sid].token == w.threads[t].drawn.value.1;
    }
  }

  lemma StillAbandoned(w: State, e: Event, w': State, token: Token)
    requires Abandoned(w, token) && Next(w, e) == Some(w')
    requires e.Purge? ==> forall sid :: sid in w.rows ==> w.rows[sid].token != token
    requires e.Drop? && e.sid in w.threads[e.t].looked && w.threads[e.t].looked[e.sid].row.Some? ==>
               w.threads[e.t].looked[e.sid].row.value.token != token
    ensures Abandoned(w', token)
  {
    NotTakenUp(w, e, w', token);
    NobodyHolds(w, e, w', token);
  }

  lemma NotTakenUp(w: State, e: Event, w': State, token: Token)
    requires !LeftTable(w, token) && Next(w, e) == Some(w')
    requires forall t :: t in w.threads && w.threads[t].drawn.Some? ==> w.threads[t].drawn.value.1 != token
    requires e.Purge? ==> forall sid :: sid in w.rows ==> w.rows[sid].token != token
    requires e.Drop? && e.sid in w.threads[e.t].looked && w.threads[e.t].looked[e.sid].row.Some? ==>
               w.threads[e.t].looked[e.sid].row.value.token != token
    ensures !LeftTable(w', token)
  {
    forall t | t in w.threads ensures token !in w.threads[t].owes {
    }
    assert forall t :: t in w'.threads ==> token !in w'.threads[t].owes;
    assert token !in AllOwed(w);
  }

  lemma NobodyHolds(w: State, e: Event, w': State, token: Token)
    requires token in w.minted && Next(w, e) == Some(w')
    requires forall sid :: sid in w.owner ==> w.owner[sid].token != token
    requires forall t :: t in w.threads && w.threads[t].drawn.Some? ==> w.threads[t].drawn.value.1 != token
    ensures token in w'.minted && forall sid :: sid in w'.owner ==> w'.owner[sid].token != token
    ensures forall t :: t in w'.threads && w'.threads[t].drawn.Some? ==> w'.threads[t].drawn.value.1 != token
  {
  }

  /** Nobody ever passes it to revocation: a login whose session could not be stored leaves its token
    * to its own lifetime. */
  lemma {:induction false} AbandonedForGood(w: State, es: seq<Event>, token: Token)
    requires Inv(w) && Abandoned(w, token) && Run(w, es).Some?
    ensures Abandoned(Run(w, es).value, token) && token !in Run(w, es).value.revoked
    decreases |es|
  {
    if es != [] {
      var next := Next(w, es[0]).value;
      AbandonedStep(w, es[0], next, token);
      Keep(w, es[0], next);
      AbandonedForGood(next, es[1..], token);
    }
  }

  /** In the run some request ends holding `token`. */
  ghost predicate LeftBehind(w: State, es: seq<Event>, token: Token)
    requires Run(w, es).Some?
    decreases |es|
  {
    es != [] && (EndsHolding(w, es[0], token) || LeftBehind(Next(w, es[0]).value, es[1..], token))
  }

  lemma {:induction false} AbandonedIfLeftBehind(w: State, es: seq<Event>, token: Token)
    requires Inv(w) && Run(w, es).Some? && Careful(w, es)
    ensures Abandoned(Run(w, es).value, token) <==> Abandoned(w, token) || LeftBehind(w, es, token)
    decreases |es|
  {
    if es != [] {
      var next := Next(w, es[0]).value;
      AbandonedStep(w, es[0], next, token);
      Keep(w, es[0], next);
      AbandonedIfLeftBehind(next, es[1..], token);
    }
  }

  /** After a run without crashes, with nobody running, a minted token is in its session's row or was
    * passed to revocation if and only if no request ended holding it. */
  lemma MintedTokensIff(start: State, es: seq<Event>, w: State, token: Token)
    requires Empty(start) && Run(start, es) == Some(w) && Careful(start, es) && w.threads == map[] && token in w.minted
    ensures token in w.revoked || (exists sid :: sid in w.rows && w.rows[sid].token == token) <==> !LeftBehind(start, es, token)
  {
    assert Inv(start);
    AbandonedIfLeftBehind(start, es, token);
    NothingIsDropped(start, es);
    RunKeeps(start, es);
    if sid :| sid in w.owner && w.owner[sid].token == token {
      assert OwnerInv(w, sid) && RowInv(w, sid);
    }
    if sid :| sid in w.rows && w.rows[sid].token == token {
      assert RowInv(w, sid);
    }
  }

  /** It happens: an administrator's login whose session cannot be stored. */
  lemma LoginLeavesToken(user: User, token: Token) returns (start: State, es: seq<Event>, w: State)
    ensures Empty(start) && Run(start, es) == Some(w) && Careful(start, es) && w.threads == map[]
    ensures Abandoned(w, token) && LeftBehind(start, es, token)
  {
    start := State(0, map[], map[], {user}, {}, {}, {}, map[], {}, {}, {}, {}, {}, {}, {}, {}, {}, map[], {});
    var w1 := Put(start, 0, Blank(0));
    assert Next(start, Begin(0)) == Some(w1);
    var w2 := Next(w1, See(0, user)).value;
    var w3 := Next(w2, Mint(0, user, token)).value;
    w := Next(w3, Finish(0)).value;
    assert Run(start, []) == Some(start);
    CarefulOn(start, [], start, Begin(0));
    CarefulOn(start, [Begin(0)], w1, See(0, user));
    CarefulOn(start, [Begin(0), See(0, user)], w2, Mint(0, user, token));
    CarefulOn(start, [Begin(0), See(0, user), Mint(0, user, token)], w3, Finish(0));
    es := [Begin(0), See(0, user), Mint(0, user, token), Finish(0)];
    assert [] + [Begin(0)] == [Begin(0)];
    assert [Begin(0)] + [See(0, user)] == [Begin(0), See(0, user)];
    assert [Begin(0), See(0, user)] + [Mint(0, user, token)] == [Begin(0), See(0, user), Mint(0, user, token)];
    assert [Begin(0), See(0, user), Mint(0, user, token)] + [Finish(0)] == es;
    assert Inv(start);
    RunKeeps(start, [Begin(0), See(0, user), Mint(0, user, token)]);
    HolderEnds(w3, 0, w, token);
    AbandonedIfLeftBehind(start, es, token);
  }

  // ---- re-validation -------------------------------------------------------------------------------

  /** The stamp of a row was written by one request, which looked up the user's policy and the token
    * itself: a login, or, once the stamp is later than the login, a request that had read the row
    * before it looked. */
  lemma StampsAreVouchedFor(w: State, sid: Sid)
    requires Reachable(w) && sid in w.rows
    ensures exists x :: x in w.stamps && x.sid == sid && x.at == w.rows[sid].lastCheck && Sound(w, sid, x)
  {
    ReachableInv(w);
    assert RowInv(w, sid) && OwnerInv(w, sid) && StampInv(w, w.last[sid]);
    assert Sound(w, sid, w.last[sid]);
  }

  ghost predicate Sound(w: State, sid: Sid, x: Stamp)
    requires sid in w.rows
  {
    && x.start <= x.saw <= x.at && x.start <= x.heard <= x.at
    && (w.rows[sid].user, x.saw) in w.sightings && (w.rows[sid].token, x.heard) in w.living
    && (x.at > w.rows[sid].created ==> !x.login && (sid, x.start) in w.fetched)
  }

  /** Every accepted request lies within both age limits of its session, and either a stamp of that
    * session was at most `SESSION_RECHECK` old or the request looked up user and token itself. */
  lemma AcceptedIsChecked(w: State, a: Acceptance)
    requires Reachable(w) && a in w.accepted
    ensures a.sid in w.owner && w.owner[a.sid].user == a.user
    ensures a.at - w.owner[a.sid].created <= SESSION_ABSOLUTE && TouchedBefore(w, a.sid, a.at)
    ensures match a.own
            case None => StampedBefore(w, a.sid, a.at)
            case Some((saw, heard)) =>
              && a.at <= saw && a.at <= heard
              && (a.user, saw) in w.sightings && (w.owner[a.sid].token, heard) in w.living
  {
    ReachableInv(w);
    assert AcceptInv(w, a);
  }

  /** `u` is never given the admin policy. */
  predicate NeverAdmin(es: seq<Event>, u: User) {
    forall i :: 0 <= i < |es| && es[i].SetAdmins? ==> u !in es[i].users
  }

  /** `u` does not hold the policy, and no running request has seen it held. */
  ghost predicate Shut(w: State, u: User) {
    u !in w.admins && forall t :: t in w.threads && w.threads[t].saw.Some? ==> w.threads[t].saw.value.0 != u
  }

  /** No session of `u` is added and no stamp of one is written between `w` and `w'`, and what is
    * accepted for `u` follows the last stamp by at most `SESSION_RECHECK`. */
  ghost predicate NoNewRights(w: State, w': State, u: User) {
    && (forall sid :: sid in w'.owner && w'.owner[sid].user == u ==>
          sid in w.owner && w'.owner[sid] == w.owner[sid] && sid in w.last && sid in w'.last && w'.last[sid] == w.last[sid])
    && (forall a :: a in w'.accepted && a !in w.accepted && a.user == u ==>
          a.sid in w.owner && w.owner[a.sid].user == u && a.sid in w.last && a.at <= w.last[a.sid].at + SESSION_RECHECK)
  }

  lemma ShutStep(w: State, e: Event, w': State, u: User)
    requires Inv(w) && Shut(w, u) && Next(w, e) == Some(w') && (e.SetAdmins? ==> u !in e.users)
    ensures Shut(w', u) && NoNewRights(w, w', u)
  {
    forall sid | sid in w.owner ensures sid in w.last {
      assert OwnerInv(w, sid);
    }
    if e.Touch? {
      TouchIsNotOurs(w, e.t, e.sid, e.checked, w', u);
    } else if e.Accept? {
      AcceptIsOld(w, e.t, e.sid, w', u);
    }
  }

  lemma TouchIsNotOurs(w: State, t: Tid, sid: Sid, checked: bool, w': State, u: User)
    requires Inv(w) && Shut(w, u) && Next(w, Touch(t, sid, checked)) == Some(w')
    ensures w'.threads == w.threads && w'.admins == w.admins && w'.owner == w.owner && w'.accepted == w.accepted
    ensures forall x :: x in w.owner && w.owner[x].user == u && x in w.last ==> x in w'.last && w'.last[x] == w.last[x]
  {
    assert MindInv(w, t) && LookInv(w, w.threads[t], sid);
  }

  lemma AcceptIsOld(w: State, t: Tid, sid: Sid, w': State, u: User)
    requires Inv(w) && Shut(w, u) && Next(w, Accept(t, sid)) == Some(w')
    ensures forall a :: a in w'.accepted && a !in w.accepted && a.user == u ==>
              a.sid in w.owner && w.owner[a.sid].user == u && a.sid in w.last && a.at <= w.last[a.sid].at + SESSION_RECHECK
  {
    assert MindInv(w, t) && LookInv(w, w.threads[t], sid);
  }

  lemma {:induction false} ShutRun(w: State, es: seq<Event>, u: User)
    requires Inv(w) && Shut(w, u) && Run(w, es).Some? && NeverAdmin(es, u)
    ensures NoNewRights(w, Run(w, es).value, u)
    decreases |es|
  {
    if es == [] {
      forall sid | sid in w.owner ensures sid in w.last {
        assert OwnerInv(w, sid);
      }
    } else {
      var next := Next(w, es[0]).value;
      Keep(w, es[0], next);
      ShutStep(w, es[0], next, u);
      assert NeverAdmin(es[1..], u);
      ShutRun(next, es[1..], u);
      RightsOn(w, next, Run(next, es[1..]).value, u);
    }
  }

  lemma RightsOn(a: State, b: State, c: State, u: User)
    requires NoNewRights(a, b, u) && NoNewRights(b, c, u)
    ensures NoNewRights(a, c, u)
  {
  }

  /** While `u` is without the policy nobody sees it held. */
  lemma {:induction false} NoNewSighting(w: State, es: seq<Event>, u: User)
    requires Run(w, es).Some? && NeverAdmin(es, u) && u !in w.admins
    ensures u !in Run(w, es).value.admins
    ensures forall c :: (u, c) in Run(w, es).value.sightings ==> (u, c) in w.sightings
    decreases |es|
  {
    if es != [] {
      var next := Next(w, es[0]).value;
      assert NeverAdmin(es[1..], u);
      NoNewSighting(next, es[1..], u);
    }
  }

  /** Once a user is out of the policy for good (`gone`), and no request that began by then is still
    * running (`w`), every later acceptance of that user's requests comes at most `SESSION_RECHECK` after
    * the last stamp their session had at that point; and no session of theirs is added. */
  lemma RightsRunOut(gone: State, es: seq<Event>, w: State, fs: seq<Event>, w': State, u: User)
    requires Reachable(gone) && u !in gone.admins
    requires Run(gone, es) == Some(w) && NeverAdmin(es, u) && Run(w, fs) == Some(w') && NeverAdmin(fs, u)
    requires forall t :: t in w.threads ==> w.threads[t].since > gone.now
    ensures forall a :: a in w'.accepted && a !in w.accepted && a.user == u ==>
              a.sid in w.last && a.at <= w.last[a.sid].at + SESSION_RECHECK <= w.now + SESSION_RECHECK
    ensures forall sid :: sid in w'.owner && w'.owner[sid].user == u ==> sid in w.owner
  {
    ReachableInv(gone);
    RunKeeps(gone, es);
    NoNewSighting(gone, es, u);
    forall t | t in w.threads && w.threads[t].saw.Some? ensures w.threads[t].saw.value.0 != u {
      assert MindInv(w, t);
    }
    ShutRun(w, fs, u);
    forall sid | sid in w.last ensures w.last[sid].at <= w.now {
      assert OwnerInv(w, sid) && StampInv(w, w.last[sid]);
    }
  }
}
