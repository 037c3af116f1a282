/** Portal sessions as a transition system: the rows of the session table, what every running request
  * has read of them, and what became of each Vault token a row ever held. */
module Sessions {
  import opened Wrappers

  type Sid = string
  type User = string
  type Token = string
  type Tid = nat

  const SESSION_ABSOLUTE := 8 * 3600
  const SESSION_IDLE := 1800
  const SESSION_RECHECK := 300

  datatype Session = Session(user: User, token: Token, created: int, lastSeen: int, lastCheck: int)

  /** What a request read of a row, and when. */
  datatype Look = Look(row: Option<Session>, at: int)

  /** One request or reconciler pass: when it began, the rows it read, the clock readings it judges them
    * by, the tokens it took out of the table and has not yet passed on, the token its login minted, and
    * when it last saw a user hold the admin policy and a token honoured. */
  datatype Mind = Mind(since: int, looked: map<Sid, Look>, judged: map<Sid, int>, owes: set<Token>,
                       drawn: Option<(User, Token)>, saw: Option<(User, int)>, heard: Option<(Token, int)>)

  function Blank(now: int): Mind {
    Mind(now, map[], map[], {}, None, None, None)
  }

  /** One writing of `last_check`: when, for which row, by a login or by a request that read the row at
    * `start`, and when that request saw the user's policy and the token. */
  datatype Stamp = Stamp(sid: Sid, login: bool, start: int, saw: int, heard: int, at: int)

  datatype Owner = Owner(user: User, token: Token, created: int)

  /** A request let through: judged at `at`, and, if it looked up user and token itself, when. */
  datatype Acceptance = Acceptance(sid: Sid, user: User, at: int, own: Option<(int, int)>)

  /** `dead` are the tokens Vault no longer honours. The rest after `admins` is history: the ids ever
    * presented or drawn, the tokens minted, who got which session, the tokens passed to revocation and
    * those dropped, the times at which a user was seen with the policy and a token honoured, or seen
    * without and not honoured, the reads of rows and the writings of `last_seen`, all stamps and the last
    * one of each session, and the requests accepted. */
  datatype State = State(now: int, rows: map<Sid, Session>, threads: map<Tid, Mind>, admins: set<User>, dead: set<Token>,
                         known: set<Sid>, minted: set<Token>, owner: map<Sid, Owner>, revoked: set<Token>,
                         lost: set<Token>, sightings: set<(User, int)>, living: set<(Token, int)>,
                         misses: set<(User, int)>, deaths: set<(Token, int)>,
                         fetched: set<(Sid, int)>, touches: set<(Sid, int)>, stamps: set<Stamp>, last: map<Sid, Stamp>, accepted: set<Acceptance>)

  datatype Event = Tick(to: int) | SetAdmins(users: set<User>) | Die(tokens: set<Token>) | Crash
                 | Begin(t: Tid) | Finish(t: Tid)
                 | Read(t: Tid, sid: Sid) | Judge(t: Tid, sid: Sid) | Accept(t: Tid, sid: Sid)
                 | Drop(t: Tid, sid: Sid) | Touch(t: Tid, sid: Sid, checked: bool)
                 | Purge(t: Tid) | Revoke(t: Tid, token: Token)
                 | See(t: Tid, user: User) | LookUp(t: Tid, token: Token) | Miss(t: Tid, user: User) | Bury(t: Tid, token: Token)
                 | Mint(t: Tid, user: User, token: Token) | Discard(t: Tid) | Create(t: Tid, sid: Sid)

  // ---- the two ways the source writes the age limits ---------------------------------------------

  /** The test of `current_session`. */
  predicate TooOld(s: Session, now: int) {
    now - s.created > SESSION_ABSOLUTE || now - s.lastSeen > SESSION_IDLE
  }

  /** The WHERE clause of `purge_sessions`. */
  predicate Purgeable(s: Session, now: int) {
    s.created < now - SESSION_ABSOLUTE || s.lastSeen < now - SESSION_IDLE
  }

  // ---- steps ---------------------------------------------------------------------------------------

  function Put(w: State, t: Tid, m: Mind): State {
    w.(threads := w.threads[t := m])
  }

  /** `get_session`. */
  function DoRead(w: State, t: Tid, sid: Sid): State
    requires t in w.threads
  {
    var m := w.threads[t];
    var row := if sid in w.rows then Some(w.rows[sid]) else None;
    Put(w.(known := w.known + {sid}, fetched := w.fetched + {(sid, w.now)}), t,
        m.(looked := m.looked[sid := Look(row, w.now)], judged := m.judged - {sid}))
  }

  /** The clock is read after the row. */
  function DoJudge(w: State, t: Tid, sid: Sid): Option<State>
    requires t in w.threads
  {
    var m := w.threads[t];
    if sid !in m.looked then None else Some(Put(w, t, m.(judged := m.judged[sid := w.now])))
  }

  /** A row whose stamp is recent at `at`, or whose user and token the request looked up from then on. */
  predicate Checked(m: Mind, s: Session, at: int) {
    at - s.lastCheck <= SESSION_RECHECK || SawBoth(m, s, at)
  }

  predicate SawBoth(m: Mind, s: Session, from: int) {
    && m.saw.Some? && m.saw.value.0 == s.user && m.saw.value.1 >= from
    && m.heard.Some? && m.heard.value.0 == s.token && m.heard.value.1 >= from
  }

  /** `current_session` lets the request through. */
  function DoAccept(w: State, t: Tid, sid: Sid): Option<State>
    requires t in w.threads
  {
    var m := w.threads[t];
    if !(sid in m.looked && m.looked[sid].row.Some? && sid in m.judged) then None
    else
      var s, at := m.looked[sid].row.value, m.judged[sid];
      if TooOld(s, at) || !Checked(m, s, at) then None
      else
        var own := if at - s.lastCheck <= SESSION_RECHECK then None else Some((m.saw.value.1, m.heard.value.1));
        Some(w.(accepted := w.accepted + {Acceptance(sid, s.user, at, own)}))
  }

  /** A request may delete only a row it has read; what it read tells it which token it then owes. */
  function DoDrop(w: State, t: Tid, sid: Sid): Option<State>
    requires t in w.threads
  {
    var m := w.threads[t];
    if sid !in m.looked then None
    else
      var owed := if m.looked[sid].row.Some? then {m.looked[sid].row.value.token} else {};
      Some(Put(w.(rows := w.rows - {sid}), t, m.(owes := m.owes + owed)))
  }

  /** `touch_session`: nothing happens to a row that is gone. The stamp of a check needs a look at the
    * user's policy and at the token since the row was read; without a check the stamp stays. */
  function DoTouch(w: State, t: Tid, sid: Sid, checked: bool): Option<State>
    requires t in w.threads
  {
    var m := w.threads[t];
    if sid !in m.looked || m.looked[sid].row.None? then None
    else if checked && !SawBoth(m, m.looked[sid].row.value, m.looked[sid].at) then None
    else if sid !in w.rows then Some(w)
    else if checked then
      var stamp := Stamp(sid, false, m.looked[sid].at, m.saw.value.1, m.heard.value.1, w.now);
      Some(w.(rows := w.rows[sid := w.rows[sid].(lastSeen := w.now, lastCheck := w.now)],
              touches := w.touches + {(sid, w.now)}, stamps := w.stamps + {stamp}, last := w.last[sid := stamp]))
    else Some(w.(rows := w.rows[sid := w.rows[sid].(lastSeen := w.now)], touches := w.touches + {(sid, w.now)}))
  }

  function Old(w: State): set<Sid> {
    set sid | sid in w.rows && Purgeable(w.rows[sid], w.now)
  }

  function DoPurge(w: State, t: Tid): State
    requires t in w.threads
  {
    var m := w.threads[t];
    Put(w.(rows := w.rows - Old(w)), t, m.(owes := m.owes + set sid | sid in Old(w) :: w.rows[sid].token))
  }

  function DoRevoke(w: State, t: Tid, token: Token): Option<State>
    requires t in w.threads
  {
    var m := w.threads[t];
    if token !in m.owes then None
    else Some(Put(w.(revoked := w.revoked + {token}), t, m.(owes := m.owes - {token})))
  }

  function DoSee(w: State, t: Tid, user: User): Option<State>
    requires t in w.threads
  {
    if user !in w.admins then None
    else Some(Put(w.(sightings := w.sightings + {(user, w.now)}), t, w.threads[t].(saw := Some((user, w.now)))))
  }

  function DoLookUp(w: State, t: Tid, token: Token): Option<State>
    requires t in w.threads
  {
    if token in w.dead then None
    else Some(Put(w.(living := w.living + {(token, w.now)}), t, w.threads[t].(heard := Some((token, w.now)))))
  }

  /** The other answers: the user lacks the policy, the token is not honoured. */
  function DoMiss(w: State, user: User): Option<State> {
    if user in w.admins then None else Some(w.(misses := w.misses + {(user, w.now)}))
  }

  function DoBury(w: State, token: Token): Option<State> {
    if token !in w.dead then None else Some(w.(deaths := w.deaths + {(token, w.now)}))
  }

  /** A login with the right password, at most one in a request; the token is new, and honoured as it is
    * handed out. */
  function DoMint(w: State, t: Tid, user: User, token: Token): Option<State>
    requires t in w.threads
  {
    if token in w.minted || token in w.dead || w.threads[t].drawn.Some? then None
    else Some(Put(w.(minted := w.minted + {token}, living := w.living + {(token, w.now)}), t,
                  w.threads[t].(drawn := Some((user, token)), heard := Some((token, w.now)))))
  }

  function DoDiscard(w: State, t: Tid): Option<State>
    requires t in w.threads
  {
    var m := w.threads[t];
    if m.drawn.None? then None
    else Some(Put(w.(revoked := w.revoked + {m.drawn.value.1}), t, m.(drawn := None)))
  }

  /** `create_session`; the random id is one nobody has presented or drawn before. */
  function DoCreate(w: State, t: Tid, sid: Sid): Option<State>
    requires t in w.threads
  {
    var m := w.threads[t];
    if sid in w.known || m.drawn.None? then None
    else
      var (user, token) := m.drawn.value;
      var s := Session(user, token, w.now, w.now, w.now);
      if !SawBoth(m, s, m.since) then None
      else
        var stamp := Stamp(sid, true, m.since, m.saw.value.1, m.heard.value.1, w.now);
        Some(Put(w.(rows := w.rows[sid := s], known := w.known + {sid}, owner := w.owner[sid := Owner(user, token, w.now)],
                    touches := w.touches + {(sid, w.now)}, stamps := w.stamps + {stamp}, last := w.last[sid := stamp]),
                 t, m.(drawn := None)))
  }

  function AllOwed(w: State): set<Token> {
    set t, token | t in w.threads && token in w.threads[t].owes :: token
  }

  function ByThread(w: State, e: Event): Option<State>
    requires !e.Tick? && !e.SetAdmins? && !e.Die? && !e.Crash? && !e.Begin? && e.t in w.threads
  {
    var t := e.t;
    var m := w.threads[t];
    match e
    case Finish(_) => Some(w.(threads := w.threads - {t}, lost := w.lost + m.owes))
    case Read(_, sid) => Some(DoRead(w, t, sid))
    case Judge(_, sid) => DoJudge(w, t, sid)
    case Accept(_, sid) => DoAccept(w, t, sid)
    case Drop(_, sid) => DoDrop(w, t, sid)
    case Touch(_, sid, checked) => DoTouch(w, t, sid, checked)
    case Purge(_) => Some(DoPurge(w, t))
    case Revoke(_, token) => DoRevoke(w, t, token)
    case See(_, user) => DoSee(w, t, user)
    case LookUp(_, token) => DoLookUp(w, t, token)
    case Miss(_, user) => DoMiss(w, user)
    case Bury(_, token) => DoBury(w, token)
    case Mint(_, user, token) => DoMint(w, t, user, token)
    case Discard(_) => DoDiscard(w, t)
    case Create(_, sid) => DoCreate(w, t, sid)
  }

  function Next(w: State, e: Event): Option<State> {
    match e
    case Tick(to) => if to < w.now then None else Some(w.(now := to))
    case SetAdmins(users) => Some(w.(admins := users))
    case Die(tokens) => Some(w.(dead := w.dead + tokens))
    case Crash => Some(w.(threads := map[], lost := w.lost + AllOwed(w)))
    case Begin(t) => if t in w.threads then None else Some(Put(w, t, Blank(w.now)))
    case _ => if e.t in w.threads then ByThread(w, e) else None
  }

  function Run(w: State, es: seq<Event>): Option<State>
    decreases |es|
  {
    if es == [] then Some(w)
    else
      var next := Next(w, es[0]);
      if next.None? then None else Run(next.value, es[1..])
  }

  ghost predicate Empty(w: State) {
    && w.rows == map[] && w.threads == map[] && w.known == {} && w.minted == {} && w.owner == map[]
    && w.revoked == {} && w.lost == {} && w.sightings == {} && w.living == {} && w.fetched == {}
    && w.stamps == {} && w.last == map[] && w.accepted == {} && w.misses == {} && w.deaths == {} && w.touches == {}
  }

  ghost predicate Reachable(w: State) {
    exists start, es :: Empty(start) && Run(start, es) == Some(w)
  }

  // ---- the invariant ---------------------------------------------------------------------------------

  /** Tokens that left the table: passed to revocation, owed by a running request, or dropped. */
  ghost predicate LeftTable(w: State, token: Token) {
    token in w.revoked || token in w.lost || exists t :: t in w.threads && token in w.threads[t].owes
  }

  ghost predicate RowInv(w: State, sid: Sid) {
    sid in w.rows ==>
      var s := w.rows[sid];
      && sid in w.owner && w.owner[sid] == Owner(s.user, s.token, s.created)
      && s.created <= s.lastCheck <= s.lastSeen <= w.now
      && (sid, s.lastSeen) in w.touches
      && sid in w.last && w.last[sid].at == s.lastCheck && (w.last[sid].login ==> s.lastCheck == s.created)
  }

  /** A session's token is in its row, or it left the table; never both. */
  ghost predicate OwnerInv(w: State, sid: Sid) {
    sid in w.owner ==>
      && sid in w.known && w.owner[sid].token in w.minted
      && (sid in w.rows <==> !LeftTable(w, w.owner[sid].token))
      && sid in w.last && w.last[sid].sid == sid && w.last[sid] in w.stamps
  }

  /** A stamp stands for a look at the user's policy and one at the token, both made by the request
    * that wrote it, after it had begun or had read the row. */
  ghost predicate StampInv(w: State, x: Stamp) {
    x in w.stamps ==>
      && x.sid in w.owner && x.start <= x.saw <= x.at <= w.now && x.start <= x.heard <= x.at
      && (w.owner[x.sid].user, x.saw) in w.sightings && (w.owner[x.sid].token, x.heard) in w.living
      && (!x.login ==> (x.sid, x.start) in w.fetched)
  }

  ghost predicate DistinctTokens(w: State) {
    forall a, b :: a in w.owner && b in w.owner && w.owner[a].token == w.owner[b].token ==> a == b
  }

  /** A row as it was read carries some stamp, no later than the last one. */
  ghost predicate ReadRowInv(w: State, sid: Sid, s: Session) {
    && sid in w.owner && w.owner[sid] == Owner(s.user, s.token, s.created)
    && s.created <= s.lastCheck <= s.lastSeen <= w.now
    && (sid, s.lastSeen) in w.touches && StampedAt(w, sid, s.lastCheck) && s.lastCheck <= w.last[sid].at
  }

  ghost predicate StampedAt(w: State, sid: Sid, at: int) {
    sid in w.last && exists x :: x in w.stamps && x.sid == sid && x.at == at
  }

  ghost predicate LookInv(w: State, m: Mind, sid: Sid) {
    sid in m.looked ==>
      && sid in w.known && m.since <= m.looked[sid].at <= w.now && (sid, m.looked[sid].at) in w.fetched
      && (m.looked[sid].row.Some? ==>
            ReadRowInv(w, sid, m.looked[sid].row.value) && m.looked[sid].row.value.lastSeen <= m.looked[sid].at)
      && (m.looked[sid].row.None? ==> sid !in w.rows)
      && (sid in m.judged ==> m.looked[sid].at <= m.judged[sid] <= w.now)
  }

  ghost predicate DrawnInv(w: State, t: Tid) {
    t in w.threads && w.threads[t].drawn.Some? ==>
      var token := w.threads[t].drawn.value.1;
      && token in w.minted && !LeftTable(w, token)
      && (forall sid :: sid in w.owner ==> w.owner[sid].token != token)
      && forall u :: u in w.threads && u != t && w.threads[u].drawn.Some? ==> w.threads[u].drawn.value.1 != token
  }

  ghost predicate MindOk(w: State, m: Mind) {
    && (forall sid :: LookInv(w, m, sid)) && m.judged.Keys <= m.looked.Keys && m.since <= w.now
    && (m.saw.Some? ==> m.saw.value in w.sightings && m.since <= m.saw.value.1 <= w.now)
    && (m.heard.Some? ==> m.heard.value in w.living && m.since <= m.heard.value.1 <= w.now)
    && m.owes <= w.minted
  }

  ghost predicate MindInv(w: State, t: Tid) {
    t in w.threads ==> MindOk(w, w.threads[t])
  }

  /** An accepted request was within both limits, and followed a recent stamp or looked up the user and
    * the token itself once it had been judged to need that. */
  ghost predicate AcceptInv(w: State, a: Acceptance) {
    a in w.accepted ==>
      && a.sid in w.owner && w.owner[a.sid].user == a.user && a.at - w.owner[a.sid].created <= SESSION_ABSOLUTE
      && TouchedBefore(w, a.sid, a.at)
      && match a.own
         case None => StampedBefore(w, a.sid, a.at)
         case Some((saw, heard)) =>
           && a.at <= saw && a.at <= heard
           && (a.user, saw) in w.sightings && (w.owner[a.sid].token, heard) in w.living
  }

  ghost predicate TouchedBefore(w: State, sid: Sid, at: int) {
    exists c :: c <= at <= c + SESSION_IDLE && (sid, c) in w.touches
  }

  ghost predicate StampedBefore(w: State, sid: Sid, at: int) {
    exists x :: x in w.stamps && x.sid == sid && x.at <= at <= x.at + SESSION_RECHECK
  }

  ghost predicate Inv(w: State) {
    && (forall sid :: RowInv(w, sid)) && (forall sid :: OwnerInv(w, sid)) && DistinctTokens(w)
    && w.last.Keys <= w.owner.Keys
    && (forall x :: StampInv(w, x)) && (forall a :: AcceptInv(w, a))
    && (forall t :: MindInv(w, t)) && (forall t :: DrawnInv(w, t))
    && w.revoked <= w.minted && w.lost <= w.minted
    && forall x :: x in w.sightings ==> x.1 <= w.now
  }
}
