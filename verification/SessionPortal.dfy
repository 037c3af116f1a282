/** The session code of `main.py` and `store.py` in its own form. Every store access and every look at
  * Vault is one event; between any two of them other requests take any number of steps. */
module SessionPortal {
  import opened Wrappers
  import opened Sessions
  import opened SessionSteps
  import opened SessionRuns

  datatype Answer = Accepted(s: Session) | NoSession | Failed
  datatype LoginAnswer = LoggedIn(sid: Sid) | Denied | NotAdmin | LoginFailed
  datatype Request = Visit(cookie: Option<Sid>) | Login(cookie: Option<Sid>, username: User, password: string, right: bool)
                   | Logout(cookie: Option<Sid>) | Sweep

  /** User names Vault knows: `[A-Za-z0-9_.@-]{1,128}`. */
  predicate UserName(s: string) {
    1 <= |s| <= 128 && forall i :: 0 <= i < |s| ==> UserChar(s[i])
  }

  predicate UserChar(c: char) {
    'a' <= c <= 'z' || 'A' <= c <= 'Z' || '0' <= c <= '9' || c == '_' || c == '.' || c == '@' || c == '-'
  }

  lemma {:induction false} NewString(used: set<string>) returns (s: string)
    ensures s !in used && forall x :: x in used ==> |x| < |s|
    decreases |used|
  {
    if used == {} {
      s := "";
    } else {
      var x :| x in used;
      s := NewString(used - {x});
      if |s| <= |x| {
        s := x + "x";
      }
    }
  }

  /** What a login form must look like to reach Vault. */
  predicate Plausible(username: string, password: string) {
    0 < |username| <= 128 && 0 < |password| <= 512
  }

  function TokensIn(rows: map<Sid, Session>): set<Token> {
    set sid | sid in rows :: rows[sid].token
  }

  lemma OneFewer(gone: map<Sid, Session>, todo: map<Sid, Session>, sid: Sid)
    requires sid in todo && todo.Keys <= gone.Keys && forall x :: x in todo ==> todo[x] == gone[x]
    requires forall a, b :: a in gone && b in gone && gone[a].token == gone[b].token ==> a == b
    ensures TokensIn(todo - {sid}) == TokensIn(todo) - {todo[sid].token}
  {
    forall x | x in todo && x != sid ensures todo[x].token != todo[sid].token {
      assert gone[x].token != gone[sid].token;
    }
    var fewer := todo - {sid};
    forall token | token in TokensIn(todo) && token != todo[sid].token ensures token in TokensIn(fewer) {
      var x :| x in todo && todo[x].token == token;
      assert x in fewer && fewer[x].token == token;
    }
  }

  /** `user` was seen with the admin policy some time in the span, and `token` honoured. */
  ghost predicate SeenBetween(w: State, user: User, from: int, to: int) {
    exists c :: from <= c <= to && (user, c) in w.sightings
  }

  ghost predicate AliveBetween(w: State, token: Token, from: int, to: int) {
    exists c :: from <= c <= to && (token, c) in w.living
  }

  ghost predicate MissedBetween(w: State, user: User, from: int, to: int) {
    exists c :: from <= c <= to && (user, c) in w.misses
  }

  ghost predicate DeadBetween(w: State, token: Token, from: int, to: int) {
    exists c :: from <= c <= to && (token, c) in w.deaths
  }

  /** Some time from `from` on the user was unknown or without the policy, or the token not honoured. */
  ghost predicate Lacking(w: State, s: Session, from: int) {
    !UserName(s.user) || MissedBetween(w, s.user, from, w.now) || DeadBetween(w, s.token, from, w.now)
  }

  /** The two grounds for turning a request away. */
  ghost predicate Refused(w: State, s: Session, at: int) {
    TooOld(s, at) || (at - s.lastCheck > SESSION_RECHECK && Lacking(w, s, at))
  }

  ghost predicate LetIn(w: State, sid: Sid, user: User, at: int) {
    exists own :: Acceptance(sid, user, at, own) in w.accepted
  }

  lemma LackingStays(w: State, w': State, s: Session, from: int, earlier: int)
    requires Later(w, w') && Lacking(w, s, from) && earlier <= from
    ensures Lacking(w', s, earlier)
  {
    if c :| from <= c <= w.now && (s.user, c) in w.misses {
      assert (s.user, c) in w'.misses;
    }
    if c :| from <= c <= w.now && (s.token, c) in w.deaths {
      assert (s.token, c) in w'.deaths;
    }
  }

  /** At time `at` the stamp of `s` is recent, and some request wrote it for this session; or user and
    * token were both looked up from then on. */
  ghost predicate Vouched(w: State, sid: Sid, s: Session, at: int) {
    || (at - s.lastCheck <= SESSION_RECHECK && StampedAt(w, sid, s.lastCheck))
    || (SeenBetween(w, s.user, at, w.now) && AliveBetween(w, s.token, at, w.now))
  }

  lemma SightingsStay(w: State, w': State, user: User, token: Token, from: int)
    requires Later(w, w')
    ensures SeenBetween(w, user, from, w.now) ==> SeenBetween(w', user, from, w'.now)
    ensures AliveBetween(w, token, from, w.now) ==> AliveBetween(w', token, from, w'.now)
  {
    if c :| from <= c <= w.now && (user, c) in w.sightings {
      assert (user, c) in w'.sightings;
    }
    if c :| from <= c <= w.now && (token, c) in w.living {
      assert (token, c) in w'.living;
    }
  }

  lemma VouchedStays(w: State, w': State, sid: Sid, s: Session, at: int)
    requires Later(w, w') && Vouched(w, sid, s, at)
    ensures Vouched(w', sid, s, at)
  {
    SightingsStay(w, w', s.user, s.token, at);
    if StampedAt(w, sid, s.lastCheck) {
      var x :| x in w.stamps && x.sid == sid && x.at == s.lastCheck;
      assert x in w'.stamps;
    }
  }

  class Server {
    var w: State
    var faults: nat // calls of this server's that raised, and refused admissions
    ghost const start: State
    ghost var trace: seq<Event>

    /** The state is reached by a run in which no request crashed or ended owing a token. */
    ghost predicate Valid()
      reads this
    {
      Empty(start) && Run(start, trace) == Some(w) && Careful(start, trace)
    }

    /** The request is running and every token it took out of the table was passed on. */
    ghost predicate Clear(t: Tid)
      reads this
    {
      Valid() && t in w.threads && w.threads[t].owes == {}
    }

    ghost predicate HasRead(t: Tid, sid: Sid, s: Option<Session>)
      reads this
    {
      t in w.threads && sid in w.threads[t].looked && w.threads[t].looked[sid].row == s
    }

    constructor ()
      ensures Valid() && w.threads == map[]
    {
      w := State(0, map[], map[], {}, {}, {}, {}, map[], {}, {}, {}, {}, {}, {}, {}, {}, {}, map[], {});
      start := State(0, map[], map[], {}, {}, {}, {}, map[], {}, {}, {}, {}, {}, {}, {}, {}, {}, map[], {});
      trace, faults := [], 0;
    }

    /** An admission, an audit write or another call that may raise. */
    method Succeeds() returns (ok: bool)
      modifies this`faults
      ensures faults == old(faults) + if ok then 0 else 1
    {
      ok := *;
      if !ok {
        faults := faults + 1;
      }
    }

    lemma Sane()
      requires Valid()
      ensures Inv(w) && Reachable(w)
    {
      ReachableInv(w);
    }

    /** With nobody running, every token a session ever held is in its row or was passed to revocation. */
    lemma TokensArePassedOn(sid: Sid)
      requires Valid() && w.threads == map[] && sid in w.owner
      ensures sid in w.rows <==> w.owner[sid].token !in w.revoked
    {
      CarefulRunsRevoke(start, trace, w, sid);
    }

    method Take(e: Event)
      requires Valid() && Next(w, e).Some? && CarefulEvent(w, e)
      modifies this`w, this`trace
      ensures Valid() && Next(old(w), e) == Some(w) && Later(old(w), w)
    {
      Sane();
      Keep(w, e, Next(w, e).value);
      CarefulOn(start, trace, w, e);
      w, trace := Next(w, e).value, trace + [e];
    }

    /** An event of a running request's own. */
    predicate Own(e: Event, t: Tid) {
      match e
      case Tick(_) => false
      case SetAdmins(_) => false
      case Die(_) => false
      case Crash => false
      case Begin(_) => false
      case Finish(_) => false
      case _ => e.t == t
    }

    /** One event of `t`, then whatever the others do. */
    method Do(t: Tid, e: Event) returns (ghost m: State)
      requires Valid() && Own(e, t) && Next(w, e).Some?
      modifies this`w, this`trace
      ensures Next(old(w), e) == Some(m)
      ensures Valid() && Later(old(w), m) && Later(m, w) && Later(old(w), w)
      ensures t in m.threads && t in w.threads && w.threads[t] == m.threads[t]
    {
      Take(e);
      m := w;
      Others(t);
      LaterOn(old(w), m, w);
    }

    /** Other requests, which end owing nothing, just as this one does. */
    method Others(t: Tid)
      requires Valid() && t in w.threads
      modifies this`w, this`trace
      ensures Valid() && Later(old(w), w) && t in w.threads && w.threads[t] == old(w).threads[t]
    {
      var n: nat := *;
      while n > 0
        invariant Valid() && Later(old(w), w) && t in w.threads && w.threads[t] == old(w).threads[t]
      {
        var e: Event := *;
        var next := Next(w, e);
        if Harmless(w, e, t) && next.Some? {
          ghost var before := w;
          HarmlessKeepsMind(w, e, next.value, t);
          Take(e);
          LaterOn(old(w), before, w);
        }
        n := n - 1;
      }
    }

    // ---- store.py ----------------------------------------------------------------------------------

    /** The row as it is stored at the moment of the read. */
    method GetSession(t: Tid, sid: Sid) returns (ok: bool, s: Option<Session>)
      requires Clear(t)
      modifies this
      ensures faults >= old(faults) && (faults == old(faults) ==> ok)
      ensures Clear(t) && Later(old(w), w)
      ensures ok ==> s == if sid in old(w).rows then Some(old(w).rows[sid]) else None
      ensures w.threads[t] == if !ok then old(w).threads[t]
                              else old(w).threads[t].(looked := old(w).threads[t].looked[sid := Look(s, old(w).now)],
                                                      judged := old(w).threads[t].judged - {sid})
      ensures ok && s.None? ==> sid in w.known && sid !in w.rows
      ensures ok && s.Some? ==> ReadRowInv(w, sid, s.value)
      ensures ok && s.Some? && sid in w.rows ==> s.value.lastCheck <= w.rows[sid].lastCheck
    {
      ok := Succeeds();
      s := None;
      if ok {
        s := if sid in w.rows then Some(w.rows[sid]) else None;
        Sane();
        assert RowInv(w, sid);
        ghost var m := Do(t, Read(t, sid));
        Sane();
        assert MindInv(w, t) && LookInv(w, w.threads[t], sid);
      } else {
        Others(t);
      }
    }

    /** `time.time()`, read after the row. */
    method ReadClock(t: Tid, sid: Sid) returns (now: int)
      requires Clear(t) && sid in w.threads[t].looked
      modifies this`w, this`trace
      ensures Clear(t) && Later(old(w), w) && now == old(w).now
      ensures w.threads[t] == old(w).threads[t].(judged := old(w).threads[t].judged[sid := now])
    {
      now := w.now;
      ghost var m := Do(t, Judge(t, sid));
    }

    method DeleteSession(t: Tid, sid: Sid, ghost s: Option<Session>) returns (ok: bool)
      requires Clear(t) && HasRead(t, sid, s)
      modifies this
      ensures faults >= old(faults) && (faults == old(faults) ==> ok)
      ensures Valid() && t in w.threads && Later(old(w), w)
      ensures w.threads[t] == old(w).threads[t].(owes := if ok && s.Some? then {s.value.token} else {})
      ensures ok ==> sid in w.known && sid !in w.rows
    {
      ok := Succeeds();
      if ok {
        Sane();
        assert MindInv(w, t) && LookInv(w, w.threads[t], sid);
        ghost var m := Do(t, Drop(t, sid));
      } else {
        Others(t);
      }
    }

    /** Moves `last_seen`, and with a check `last_check`, to now, in the step to `m`; nothing else, and nothing
      * at all if the row is gone. The stamp of a check needs a look at the user and the token since the row was read. */
    method TouchSession(t: Tid, sid: Sid, ghost s: Session, checked: bool) returns (ok: bool, ghost m: State)
      requires Clear(t) && HasRead(t, sid, Some(s))
      requires checked ==> SawBoth(w.threads[t], s, w.threads[t].looked[sid].at)
      modifies this
      ensures faults >= old(faults) && (faults == old(faults) ==> ok)
      ensures Clear(t) && Later(old(w), w) && w.threads[t] == old(w).threads[t]
      ensures ok ==> Next(old(w), Touch(t, sid, checked)) == Some(m) && Later(m, w)
      ensures ok && sid in old(w).rows ==>
                m.rows == old(w).rows[sid := old(w).rows[sid].(lastSeen := old(w).now,
                            lastCheck := if checked then old(w).now else old(w).rows[sid].lastCheck)]
      ensures ok && sid !in old(w).rows ==> m.rows == old(w).rows
      ensures ok && sid in w.rows ==> w.rows[sid].lastSeen >= old(w).now
      ensures ok && checked && sid in w.rows ==> w.rows[sid].lastCheck >= old(w).now
    {
      ok := Succeeds();
      m := w;
      if ok {
        Sane();
        assert MindInv(w, t) && LookInv(w, w.threads[t], sid);
        m := Do(t, Touch(t, sid, checked));
      } else {
        Others(t);
      }
    }

    method CreateSession(t: Tid) returns (ok: bool, sid: Sid)
      requires Clear(t) && w.threads[t].drawn.Some?
      requires var (user, token) := w.threads[t].drawn.value;
               SawBoth(w.threads[t], Session(user, token, w.now, w.now, w.now), w.threads[t].since)
      modifies this
      ensures faults >= old(faults) && (faults == old(faults) ==> ok)
      ensures Clear(t) && Later(old(w), w)
      ensures w.threads[t] == if ok then old(w).threads[t].(drawn := None) else old(w).threads[t]
      ensures ok ==> sid !in old(w).known && sid in w.owner
                     && old(w).threads[t].drawn == Some((w.owner[sid].user, w.owner[sid].token))
                     && w.owner[sid].created == old(w).now
    {
      ok := Succeeds();
      sid := "";
      if ok {
        ghost var unused := NewString(w.known);
        sid :| sid !in w.known;
        ghost var (user, token) := w.threads[t].drawn.value;
        ghost var m := Do(t, Create(t, sid));
        assert m.owner[sid] == Owner(user, token, old(w).now) && w.owner[sid] == m.owner[sid];
      } else {
        Others(t);
      }
    }

    /** Deletes exactly the sessions `current_session` would refuse for their age at that moment. */
    method PurgeSessions(t: Tid) returns (ok: bool, gone: map<Sid, Session>)
      requires Clear(t)
      modifies this
      ensures faults >= old(faults) && (faults == old(faults) ==> ok)
      ensures Valid() && t in w.threads && Later(old(w), w)
      ensures w.threads[t] == old(w).threads[t].(owes := TokensIn(gone))
      ensures !ok ==> gone == map[]
      ensures ok ==> forall sid :: sid in gone <==> sid in old(w).rows && TooOld(old(w).rows[sid], old(w).now)
      ensures ok ==> forall sid :: sid in gone ==> gone[sid] == old(w).rows[sid] && sid in w.known && sid !in w.rows
      ensures forall a, b :: a in gone && b in gone && gone[a].token == gone[b].token ==> a == b
    {
      ok := Succeeds();
      gone := map[];
      if ok {
        Sane();
        forall sid | sid in w.rows ensures sid in w.known && sid in w.owner && w.owner[sid].token == w.rows[sid].token {
          assert RowInv(w, sid) && OwnerInv(w, sid);
        }
        gone := map sid | sid in w.rows && Purgeable(w.rows[sid], w.now) :: w.rows[sid];
        ghost var m := Do(t, Purge(t));
      } else {
        Others(t);
      }
    }

    // ---- Vault -------------------------------------------------------------------------------------

    /** `revoke_token_quietly`: whatever Vault answers, the token was passed to revocation. */
    method RevokeTokenQuietly(t: Tid, token: Token)
      requires Valid() && t in w.threads && token in w.threads[t].owes
      modifies this`w, this`trace
      ensures Valid() && Later(old(w), w) && token in w.revoked && t in w.threads
      ensures w.threads[t] == old(w).threads[t].(owes := old(w).threads[t].owes - {token})
    {
      ghost var m := Do(t, Revoke(t, token));
    }

    /** Whether the user holds the admin policy now; an odd name is an unknown user. A yes is a sighting. */
    method UserPolicies(t: Tid, user: User) returns (ok: bool, admin: bool)
      requires Clear(t)
      modifies this
      ensures faults >= old(faults) && (faults == old(faults) ==> ok)
      ensures Clear(t) && Later(old(w), w)
      ensures !UserName(user) ==> ok && !admin
      ensures ok ==> (admin <==> UserName(user) && user in old(w).admins)
      ensures w.threads[t] == if ok && admin then old(w).threads[t].(saw := Some((user, old(w).now))) else old(w).threads[t]
      ensures ok && admin ==> SeenBetween(w, user, old(w).now, w.now)
      ensures ok && !admin && UserName(user) ==> MissedBetween(w, user, old(w).now, w.now)
    {
      if !(1 <= |user| <= 128 && forall i :: 0 <= i < |user| ==>
             'A' <= user[i] <= 'Z' || 'a' <= user[i] <= 'z' || '0' <= user[i] <= '9' || user[i] in "_.@-") {
        Others(t);
        return true, false;
      }
      ok := Succeeds();
      admin := user in w.admins;
      if ok && admin {
        ghost var m := Do(t, See(t, user));
        assert (user, old(w).now) in w.sightings;
      } else if ok {
        ghost var m := Do(t, Miss(t, user));
        assert (user, old(w).now) in w.misses;
      } else {
        Others(t);
      }
    }

    /** `token_policies`: whether Vault still honours the token. */
    method TokenPolicies(t: Tid, token: Token) returns (answered: bool, alive: bool)
      requires Clear(t)
      modifies this
      ensures faults >= old(faults) && (faults == old(faults) ==> answered)
      ensures Clear(t) && Later(old(w), w)
      ensures answered ==> alive == (token !in old(w).dead)
      ensures w.threads[t] == if answered && alive then old(w).threads[t].(heard := Some((token, old(w).now)))
                              else old(w).threads[t]
      ensures answered && alive ==> AliveBetween(w, token, old(w).now, w.now)
      ensures answered && !alive ==> DeadBetween(w, token, old(w).now, w.now)
    {
      answered := Succeeds();
      alive := token !in w.dead;
      if answered && alive {
        ghost var m := Do(t, LookUp(t, token));
        assert (token, old(w).now) in w.living;
      } else if answered {
        ghost var m := Do(t, Bury(t, token));
        assert (token, old(w).now) in w.deaths;
      } else {
        Others(t);
      }
    }

    /** A right password (`right` is Vault's answer) yields a new token with the policies of that moment. */
    method UserpassLogin(t: Tid, username: User, right: bool) returns (reached: bool, admin: bool)
      requires Clear(t) && w.threads[t].drawn.None?
      modifies this
      ensures faults >= old(faults) && (faults == old(faults) ==> reached)
      ensures Clear(t) && Later(old(w), w)
      ensures !(reached && right) ==> w.threads[t] == old(w).threads[t]
      ensures reached && right ==>
                exists token :: token in w.minted - old(w).minted
                  && w.threads[t] == old(w).threads[t].(drawn := Some((username, token)), heard := Some((token, old(w).now)),
                                       saw := if admin then Some((username, old(w).now)) else old(w).threads[t].saw)
      ensures reached && right && admin ==> SeenBetween(w, username, old(w).now, w.now)
      ensures reached && right && !admin ==> MissedBetween(w, username, old(w).now, w.now)
    {
      reached := Succeeds();
      admin := username in w.admins;
      if !reached || !right {
        Others(t);
        return;
      }
      ghost var first := w;
      Take(if admin then See(t, username) else Miss(t, username));
      assert (username, w.now) in if admin then w.sightings else w.misses;
      ghost var seen := w;
      MintToken(t, username);
      LaterOn(first, seen, w);
    }

    /** Vault makes a token that was never in use. */
    method MintToken(t: Tid, username: User)
      requires Clear(t) && w.threads[t].drawn.None?
      modifies this`w, this`trace
      ensures Clear(t) && Later(old(w), w)
      ensures exists token :: token in w.minted - old(w).minted
                && w.threads[t] == old(w).threads[t].(drawn := Some((username, token)), heard := Some((token, old(w).now)))
    {
      ghost var unused := NewString(w.minted + w.dead);
      var token: Token :| token !in w.minted && token !in w.dead;
      ghost var m := Do(t, Mint(t, username, token));
      assert token in m.minted;
    }

    // ---- main.py -----------------------------------------------------------------------------------

    /** Accepts a request only within both age limits, and only if the row's stamp is recent or the
      * user's rights and the token were looked up during this very call. A request is turned away only
      * if there is no row, or the row that was read is too old, or it was due for a check and the user or
      * the token was found wanting; then the session is over and its token passed to revocation. */
    method CurrentSession(t: Tid, cookie: Option<Sid>) returns (r: Answer, ghost at: int, ghost read: Option<Session>)
      requires Clear(t)
      modifies this
      ensures faults >= old(faults) && (faults == old(faults) ==> !r.Failed?)
      ensures Clear(t) && Later(old(w), w)
      ensures r.Accepted? ==>
                && cookie.Some? && HasRead(t, cookie.value, Some(r.s)) && old(w).now <= at <= w.now
                && !TooOld(r.s, at) && Vouched(w, cookie.value, r.s, at)
                && LetIn(w, cookie.value, r.s.user, at)
      ensures r.Accepted? && cookie.value in w.rows ==>
                w.rows[cookie.value].lastSeen >= at && at - w.rows[cookie.value].lastCheck <= SESSION_RECHECK
      ensures r.NoSession? && cookie.Some? ==>
                && cookie.value in w.known && cookie.value !in w.rows && HasRead(t, cookie.value, read)
                && (read.Some? ==> read.value.token in w.revoked && old(w).now <= at && Refused(w, read.value, at))
    {
      at, read := w.now, None;
      if cookie.None? {
        return NoSession, at, read;
      }
      var sid := cookie.value;
      var ok, row := GetSession(t, sid);
      if !ok {
        return Failed, at, read;
      }
      if row.None? {
        return NoSession, at, read;
      }
      var s := row.value;
      ghost var fetched := w;
      var now := ReadClock(t, sid);
      at, read := now, row;
      ReadRowKept(fetched, w, sid, s);
      r := Decide(t, sid, s, now);
    }

    /** What becomes of a row read a moment before `now`. */
    method Decide(t: Tid, sid: Sid, s: Session, now: int) returns (r: Answer)
      requires Clear(t) && HasRead(t, sid, Some(s)) && ReadRowInv(w, sid, s) && now <= w.now
      requires sid in w.threads[t].judged && w.threads[t].judged[sid] == now && w.threads[t].looked[sid].at <= now
      requires sid in w.rows ==> s.lastCheck <= w.rows[sid].lastCheck
      modifies this
      ensures faults >= old(faults) && (faults == old(faults) ==> !r.Failed?)
      ensures Clear(t) && Later(old(w), w)
      ensures r.Accepted? ==>
                && r.s == s && HasRead(t, sid, Some(s)) && !TooOld(s, now) && Vouched(w, sid, s, now)
                && LetIn(w, sid, s.user, now)
                && (sid in w.rows ==> w.rows[sid].lastSeen >= now && now - w.rows[sid].lastCheck <= SESSION_RECHECK)
      ensures r.NoSession? ==>
                && sid in w.known && sid !in w.rows && s.token in w.revoked && HasRead(t, sid, Some(s))
                && Refused(w, s, now)
    {
      var ok;
      if now - s.created > SESSION_ABSOLUTE || now - s.lastSeen > SESSION_IDLE {
        ok := EndSession(t, sid, Some(s));
        return if ok then NoSession else Failed;
      }
      var checked := false;
      if now - s.lastCheck > SESSION_RECHECK {
        ghost var judged := w;
        var still;
        ok, still := StillAdmin(t, sid, s);
        if !ok {
          return Failed;
        }
        if !still {
          ghost var found, from := w, judged.now;
          ok := EndSession(t, sid, Some(s));
          LackingStays(found, w, s, from, now);
          var audited := Succeeds();
          return if ok && audited then NoSession else Failed;
        }
        checked := true;
        SightingsFrom(judged, w, s.user, s.token, now);
      }
      ok := LetThrough(t, sid, s, now, checked);
      return if ok then Accepted(s) else Failed;
    }

    lemma SightingsFrom(w0: State, w1: State, user: User, token: Token, at: int)
      requires at <= w0.now && SeenBetween(w1, user, w0.now, w1.now) && AliveBetween(w1, token, w0.now, w1.now)
      ensures SeenBetween(w1, user, at, w1.now) && AliveBetween(w1, token, at, w1.now)
    {
    }

    /** The last lines: touch the row and let the request through. */
    method LetThrough(t: Tid, sid: Sid, s: Session, ghost at: int, checked: bool) returns (ok: bool)
      requires Clear(t) && HasRead(t, sid, Some(s)) && sid in w.threads[t].judged && w.threads[t].judged[sid] == at
      requires !TooOld(s, at) && at <= w.now && Vouched(w, sid, s, at) && w.threads[t].looked[sid].at <= at
      requires if checked then SawBoth(w.threads[t], s, at) else at - s.lastCheck <= SESSION_RECHECK
      requires sid in w.owner && (sid in w.rows ==> s.lastCheck <= w.rows[sid].lastCheck)
      modifies this
      ensures faults >= old(faults) && (faults == old(faults) ==> ok)
      ensures Clear(t) && HasRead(t, sid, Some(s)) && Later(old(w), w)
      ensures ok ==> Vouched(w, sid, s, at) && LetIn(w, sid, s.user, at)
      ensures ok && sid in w.rows ==> w.rows[sid].lastSeen >= at && at - w.rows[sid].lastCheck <= SESSION_RECHECK
    {
      ghost var first, m := w, w;
      ok, m := TouchSession(t, sid, s, checked);
      if ok {
        ghost var touched := w;
        Admit(t, sid, s, at);
        LaterOn(first, touched, w);
      }
      VouchedStays(first, w, sid, s, at);
    }

    method Admit(t: Tid, sid: Sid, s: Session, ghost at: int)
      requires Clear(t) && HasRead(t, sid, Some(s)) && sid in w.threads[t].judged && w.threads[t].judged[sid] == at
      requires !TooOld(s, at) && Checked(w.threads[t], s, at)
      modifies this`w, this`trace
      ensures Clear(t) && w.threads[t] == old(w).threads[t] && Later(old(w), w) && LetIn(w, sid, s.user, at)
    {
      ghost var own := if at - s.lastCheck <= SESSION_RECHECK then None
                       else Some((w.threads[t].saw.value.1, w.threads[t].heard.value.1));
      ghost var n := Do(t, Accept(t, sid));
      assert Acceptance(sid, s.user, at, own) in n.accepted;
    }

    /** The check against current rights: admission, the user's policies, the token's. */
    method StillAdmin(t: Tid, sid: Sid, s: Session) returns (ok: bool, still: bool)
      requires Clear(t) && HasRead(t, sid, Some(s))
      modifies this
      ensures faults >= old(faults) && (faults == old(faults) ==> ok)
      ensures Clear(t) && Later(old(w), w)
      ensures w.threads[t] == old(w).threads[t].(saw := w.threads[t].saw, heard := w.threads[t].heard)
      ensures ok && still ==> SawBoth(w.threads[t], s, old(w).now)
      ensures ok && still ==> SeenBetween(w, s.user, old(w).now, w.now) && AliveBetween(w, s.token, old(w).now, w.now)
      ensures ok && !still ==> Lacking(w, s, old(w).now)
    {
      var admitted := Succeeds();
      if !admitted {
        return false, false;
      }
      ghost var first := w;
      var admin, alive;
      ok, admin := UserPolicies(t, s.user);
      if !ok {
        return false, false;
      }
      ghost var seen := w;
      ok, alive := TokenPolicies(t, s.token);
      LaterOn(first, seen, w);
      still := admin && alive;
      SightingsStay(seen, w, s.user, s.token, first.now);
      if !admin {
        LackingStays(seen, w, s, first.now, first.now);
      }
    }

    /** Delete the row, then pass on the token that was read from it. */
    method EndSession(t: Tid, sid: Sid, s: Option<Session>) returns (ok: bool)
      requires Clear(t) && HasRead(t, sid, s)
      modifies this
      ensures faults >= old(faults) && (faults == old(faults) ==> ok)
      ensures Clear(t) && Later(old(w), w) && w.threads[t] == old(w).threads[t]
      ensures ok ==> sid in w.known && sid !in w.rows && (s.Some? ==> s.value.token in w.revoked)
    {
      ok := DeleteSession(t, sid, s);
      if ok && s.Some? {
        RevokeTokenQuietly(t, s.value.token);
      }
    }

    /** The old session behind the cookie ends with the login, its token included. The new token goes to
      * the new session, or for a user without the policy straight to revocation; if anything fails after
      * the password was right and before the session is stored, it is left to its own lifetime. */
    method DoLogin(t: Tid, cookie: Option<Sid>, username: User, password: string, right: bool) returns (r: LoginAnswer)
      requires Clear(t) && w.threads[t].drawn.None?
      modifies this
      ensures faults >= old(faults) && (faults == old(faults) ==> !r.LoginFailed?)
      ensures Clear(t) && Later(old(w), w)
      ensures r.LoggedIn? ==>
                && r.sid !in old(w).known && r.sid in w.owner && w.owner[r.sid].user == username
                && SeenBetween(w, username, old(w).now, w.now)
                && (cookie.Some? ==> cookie.value != r.sid && cookie.value in w.known && cookie.value !in w.rows)
                && (cookie.Some? && cookie.value in w.owner ==> LeftTable(w, w.owner[cookie.value].token))
      ensures r.LoggedIn? || r.NotAdmin? ==> Plausible(username, password) && right
      ensures r.Denied? ==> !Plausible(username, password) || !right
      ensures r.NotAdmin? ==> MissedBetween(w, username, old(w).now, w.now)
      ensures r.NotAdmin? ==> exists token :: token in w.minted - old(w).minted && token in w.revoked
      ensures !r.LoginFailed? ==> w.threads[t].drawn.None?
      ensures w.threads[t].drawn.Some? ==>
                var token := w.threads[t].drawn.value.1;
                token in w.minted - old(w).minted && !LeftTable(w, token) && forall sid :: sid in w.owner ==> w.owner[sid].token != token
    {
      var admitted := Succeeds();
      if !admitted {
        return LoginFailed;
      }
      if username == "" || password == "" || |username| > 128 || |password| > 512 {
        r := LoginPage(Denied);
        return;
      }
      ghost var first := w;
      var reached, admin := UserpassLogin(t, username, right);
      if !reached {
        return LoginFailed;
      }
      if !right {
        r := LoginPage(Denied);
        return;
      }
      ghost var entered := w;
      if !admin {
        Discarded(t, username, first);
        r := LoginPage(NotAdmin);
        return;
      }
      r := Enter(t, cookie, username, first.now);
      LaterOn(first, entered, w);
      Sane();
      assert DrawnInv(w, t);
    }

    /** The token of a user without the policy goes straight to revocation. */
    method Discarded(t: Tid, username: User, ghost first: State)
      requires Clear(t) && Later(first, w) && w.threads[t].drawn.Some?
      requires w.threads[t].drawn.value.1 in w.minted - first.minted && MissedBetween(w, username, first.now, w.now)
      modifies this`w, this`trace
      ensures Clear(t) && Later(first, w) && w.threads[t].drawn.None?
      ensures MissedBetween(w, username, first.now, w.now)
      ensures exists token :: token in w.minted - first.minted && token in w.revoked
    {
      ghost var entered, token := w, w.threads[t].drawn.value.1;
      ghost var m := Do(t, Discard(t));
      assert token in m.revoked && token in m.minted;
      LaterOn(first, entered, w);
      ghost var c :| first.now <= c <= entered.now && (username, c) in entered.misses;
      assert (username, c) in w.misses;
    }

    /** The page that refuses a login, once the refusal is in the audit log. */
    method LoginPage(answer: LoginAnswer) returns (r: LoginAnswer)
      modifies this`faults
      ensures faults >= old(faults) && (faults == old(faults) ==> r == answer)
      ensures r == answer || r == LoginFailed
    {
      var audited := Succeeds();
      r := if audited then answer else LoginFailed;
    }

    /** The rest of a login by an administrator. */
    method Enter(t: Tid, cookie: Option<Sid>, username: User, ghost from: int) returns (r: LoginAnswer)
      requires Clear(t) && w.threads[t].drawn.Some? && w.threads[t].drawn.value.0 == username
      requires w.threads[t].saw.Some? && w.threads[t].saw.value.0 == username
      requires w.threads[t].heard.Some? && w.threads[t].heard.value.0 == w.threads[t].drawn.value.1
      requires SeenBetween(w, username, from, w.now)
      modifies this
      ensures faults >= old(faults) && (faults == old(faults) ==> r.LoggedIn?)
      ensures Clear(t) && Later(old(w), w)
      ensures r.LoggedIn? || (r.LoginFailed? && (w.threads[t].drawn.None? || w.threads[t].drawn == old(w).threads[t].drawn))
      ensures r.LoggedIn? ==>
                && w.threads[t].drawn.None?
                && r.sid !in old(w).known && r.sid in w.owner && w.owner[r.sid].user == username
                && SeenBetween(w, username, from, w.now)
                && (cookie.Some? ==> cookie.value != r.sid && cookie.value in w.known && cookie.value !in w.rows)
                && (cookie.Some? && cookie.value in w.owner ==> LeftTable(w, w.owner[cookie.value].token))
    {
      ghost var entered := w;
      if cookie.Some? {
        var ended := EndPrevious(t, cookie.value);
        if !ended {
          return LoginFailed;
        }
      }
      Sane();
      assert MindInv(w, t);
      var ok, sid := CreateSession(t);
      if !ok {
        return LoginFailed;
      }
      var audited := Succeeds();
      if !audited {
        return LoginFailed;
      }
      SightingsStay(entered, w, username, "", from);
      Sane();
      if cookie.Some? && cookie.value in w.owner {
        TokensAreAccountedFor(w, cookie.value);
      }
      return LoggedIn(sid);
    }

    /** The session a login replaces. */
    method EndPrevious(t: Tid, cookie: Sid) returns (ok: bool)
      requires Clear(t)
      modifies this
      ensures faults >= old(faults) && (faults == old(faults) ==> ok)
      ensures Clear(t) && Later(old(w), w)
      ensures ok ==> cookie in w.known && cookie !in w.rows
      ensures w.threads[t] == old(w).threads[t].(looked := w.threads[t].looked, judged := w.threads[t].judged)
    {
      var prev;
      ok, prev := GetSession(t, cookie);
      if !ok {
        return;
      }
      ok := EndSession(t, cookie, prev);
    }

    /** The session ends and its token is passed to revocation. */
    method DoLogout(t: Tid, sid: Sid, s: Session) returns (ok: bool)
      requires Clear(t) && HasRead(t, sid, Some(s))
      modifies this
      ensures faults >= old(faults) && (faults == old(faults) ==> ok)
      ensures Clear(t) && Later(old(w), w)
      ensures ok ==> sid in w.known && sid !in w.rows && s.token in w.revoked
    {
      ok := EndSession(t, sid, Some(s));
      if ok {
        ok := Succeeds();
      }
    }

    // ---- grants.py ---------------------------------------------------------------------------------

    /** The reconciler's sweep: every session too old when the purge ran is gone and its token passed on. */
    method SweepSessions(t: Tid) returns (ok: bool)
      requires Clear(t)
      modifies this
      ensures faults >= old(faults) && (faults == old(faults) ==> ok)
      ensures Clear(t) && Later(old(w), w)
      ensures ok ==> forall sid :: sid in old(w).rows && TooOld(old(w).rows[sid], old(w).now) ==>
                       sid !in w.rows && old(w).rows[sid].token in w.revoked
    {
      ghost var first := w;
      var gone;
      ok, gone := PurgeSessions(t);
      ghost var purged := w;
      RevokeAll(t, gone);
      LaterOn(first, purged, w);
    }

    /** Its loop: every token of the rows taken out is passed on. */
    method RevokeAll(t: Tid, gone: map<Sid, Session>)
      requires Valid() && t in w.threads && w.threads[t].owes == TokensIn(gone)
      requires forall a, b :: a in gone && b in gone && gone[a].token == gone[b].token ==> a == b
      modifies this`w, this`trace
      ensures Clear(t) && Later(old(w), w) && forall sid :: sid in gone ==> gone[sid].token in w.revoked
    {
      ghost var first := w;
      var todo := gone;
      while todo != map[]
        invariant Valid() && t in w.threads && Later(first, w)
        invariant todo.Keys <= gone.Keys && forall sid :: sid in todo ==> todo[sid] == gone[sid]
        invariant w.threads[t].owes == TokensIn(todo)
        invariant forall sid :: sid in gone && sid !in todo ==> gone[sid].token in w.revoked
        decreases |todo|
      {
        var sid :| sid in todo;
        ghost var before := w;
        RevokeTokenQuietly(t, todo[sid].token);
        LaterOn(first, before, w);
        OneFewer(gone, todo, sid);
        todo := todo - {sid};
      }
    }

    // ---- whole requests ------------------------------------------------------------------------------

    /** Any request or pass of the reconciler, from its beginning to its end: it ends owing nothing, so
      * the run stays careful, as `Others` relies on for everybody else. */
    method Serve(t: Tid, request: Request)
      requires Valid() && t !in w.threads
      modifies this
      ensures Valid() && Later(old(w), w) && t !in w.threads
    {
      match request {
        case Visit(cookie) =>
          ghost var first := BeginRequest(t);
          var r, at, read := CurrentSession(t, cookie);
          EndRequest(t, first);
        case Login(cookie, username, password, right) =>
          var r, left, last := ServeLogin(t, cookie, username, password, right);
        case Logout(cookie) =>
          ghost var first := BeginRequest(t);
          var r, at, read := CurrentSession(t, cookie);
          ghost var visited := w;
          if r.Accepted? {
            var ok := DoLogout(t, cookie.value, r.s);
            LaterOn(first, visited, w);
          }
          EndRequest(t, first);
        case Sweep =>
          ghost var first := BeginRequest(t);
          var ok := SweepSessions(t);
          EndRequest(t, first);
      }
    }

    method BeginRequest(t: Tid) returns (ghost first: State)
      requires Valid() && t !in w.threads
      modifies this`w, this`trace
      ensures Clear(t) && Later(old(w), w) && first == old(w) && w.threads[t] == Blank(old(w).now)
    {
      first := w;
      Take(Begin(t));
    }

    method EndRequest(t: Tid, ghost first: State)
      requires Clear(t) && Later(first, w)
      modifies this`w, this`trace
      ensures Valid() && Next(old(w), Finish(t)) == Some(w) && Later(first, w) && t !in w.threads
    {
      ghost var served := w;
      Take(Finish(t));
      LaterOn(first, served, w);
    }

    /** A whole login. It ends holding `left`, if anything: only a login that failed late does, and then
      * the token is abandoned. */
    method ServeLogin(t: Tid, cookie: Option<Sid>, username: User, password: string, right: bool)
      returns (r: LoginAnswer, ghost left: Option<Token>, ghost last: State)
      requires Valid() && t !in w.threads
      modifies this
      ensures Valid() && Later(old(w), w) && t !in w.threads
      ensures faults >= old(faults) && (faults == old(faults) ==> !r.LoginFailed?)
      ensures Next(last, Finish(t)) == Some(w) && forall token :: EndsHolding(last, Finish(t), token) <==> left == Some(token)
      ensures left.Some? ==> r.LoginFailed? && left.value in w.minted - old(w).minted && Abandoned(w, left.value)
    {
      ghost var first := BeginRequest(t);
      ghost var begun := w;
      r := DoLogin(t, cookie, username, password, right);
      LaterOn(first, begun, w);
      left := if w.threads[t].drawn.Some? then Some(w.threads[t].drawn.value.1) else None;
      last := w;
      Sane();
      EndRequest(t, first);
      if left.Some? {
        HolderEnds(last, t, w, left.value);
      }
    }
  }
}
