/** What one call of a thread, or a stretch of others' steps, does to everything that changes. */
module Moments {
  import opened Names
  import opened Wrappers
  import opened Protocol
  import opened Invariant
  import opened Frames
  import opened SectionSteps
  import opened Preservation
  import opened Isolation
  import opened Lifecycle
  import opened Lockout
  import opened Hush
  import opened Traces

  /** All that changes: the world, the database's view of logins and sessions, how many calls and store
    * accesses have failed so far, and the events so far. */
  datatype Moment = Moment(w: World, pg: Pg, faults: nat, trace: seq<Event>)

  /** Where a teardown stands once it has read its row. */
  function AfterFetch(row: Row, final: Status): Pc {
    if row.accessor.Some? then Finding(Td(final, {row.accessor.value}, row.lease)) else Scanning(final, row.lease)
  }

  /** Rows that were there stay there, with their database and lifetime. */
  ghost predicate RowsStay(w: World, w': World) {
    forall g :: g in w.store ==> g in w'.store && w'.store[g].db == w.store[g].db && w'.store[g].ttl == w.store[g].ttl
  }

  predicate SameRow(w: World, m: World, g: GrantId) {
    g in w.store && g in m.store && m.store[g] == w.store[g]
  }

  ghost predicate SettledStay(a: Moment, b: Moment) {
    forall g :: Settled(a.w, g) ==> Settled(b.w, g) && StaysHushed(a.pg, b.pg, g)
  }

  /** Everybody but `t` went on; if there is nobody else, only time did and what has run out went. */
  ghost predicate Drifts(a: Moment, b: Moment, t: Tid, quiet: bool) {
    && RowsStay(a.w, b.w) && Onward(a.w, b.w) && b.faults == a.faults && SettledStay(a, b)
    && (t in a.w.threads <==> t in b.w.threads) && (t in a.w.threads ==> b.w.threads[t] == a.w.threads[t])
    && (t in a.w.threads && Holds(a.w.threads[t].pc) && Own(a.w, a.w.threads[t]) ==>
          Undisturbed(a.w, b.w, t) && StaysHushed(a.pg, b.pg, a.w.threads[t].g))
    && (quiet ==> Aged(a.w, b.w) && Still(a.w, b.w))
    && Aside(a.trace, b.trace, t)
  }

  predicate Still(w: World, m: World) {
    m.threads == w.threads && m.locks == w.locks && m.inflight == w.inflight
  }

  lemma DriftsOn(a: Moment, b: Moment, c: Moment, t: Tid, quiet: bool)
    requires Drifts(a, b, t, quiet) && Drifts(b, c, t, quiet)
    ensures Drifts(a, c, t, quiet)
  {
    AsideOn(a.trace, b.trace, c.trace, t);
    OnwardOn(a.w, b.w, c.w);
    if quiet {
      AgedOn(a.w, b.w, c.w);
    }
    if t in a.w.threads && Holds(a.w.threads[t].pc) && Own(a.w, a.w.threads[t]) {
      UndisturbedOn(a.w, b.w, c.w, t);
    }
  }

  lemma NoDrift(a: Moment, t: Tid, quiet: bool)
    ensures Drifts(a, a, t, quiet)
  {
    AgedIfSame(a.w, a.w);
  }

  /** From `a` to `b` thread `t` started, waited, entered or left: no fault, and nothing is lost but by
    * others, or by expiry if there is nobody else. */
  ghost predicate Wanders(a: Moment, b: Moment, t: Tid, quiet: bool) {
    && RowsStay(a.w, b.w) && Onward(a.w, b.w) && b.faults == a.faults && SettledStay(a, b)
    && (quiet ==> Aged(a.w, b.w) && b.w.threads - {t} == a.w.threads - {t})
  }

  lemma WandersOn(a: Moment, b: Moment, c: Moment, t: Tid, quiet: bool)
    requires Wanders(a, b, t, quiet) && Wanders(b, c, t, quiet)
    ensures Wanders(a, c, t, quiet)
  {
    OnwardOn(a.w, b.w, c.w);
    if quiet {
      AgedOn(a.w, b.w, c.w);
    }
  }

  /** ... and `t` itself did nothing but wait, enter and leave. */
  ghost predicate Roams(a: Moment, b: Moment, t: Tid, quiet: bool) {
    Wanders(a, b, t, quiet) && OnlyEdges(a.trace, b.trace, t)
  }

  lemma RoamsOn(a: Moment, b: Moment, c: Moment, t: Tid, quiet: bool)
    requires Roams(a, b, t, quiet) && Roams(b, c, t, quiet)
    ensures Roams(a, c, t, quiet)
  {
    WandersOn(a, b, c, t, quiet);
    OnlyEdgesOn(a.trace, b.trace, c.trace, t);
  }

  /** ... or it first took up a grant by event `e`. */
  ghost predicate Starting(a: Moment, b: Moment, t: Tid, e: Event, quiet: bool) {
    Wanders(a, b, t, quiet) && Opens(a.trace, b.trace, t, e)
  }

  lemma StartingOn(a: Moment, b: Moment, c: Moment, t: Tid, e: Event, quiet: bool)
    requires Starting(a, b, t, e, quiet) && Roams(b, c, t, quiet)
    ensures Starting(a, c, t, e, quiet)
  {
    WandersOn(a, b, c, t, quiet);
    OpensOn(a.trace, b.trace, c.trace, t, e);
  }

  lemma EdgeWanders(a: Moment, b: Moment, t: Tid, quiet: bool)
    requires SameResources(a.w, b.w) && b.w.threads - {t} == a.w.threads - {t} && a.pg == b.pg && a.faults == b.faults
    ensures Wanders(a, b, t, quiet)
  {
    AgedIfSame(a.w, b.w);
  }

  lemma DriftRoams(a: Moment, b: Moment, t: Tid, quiet: bool)
    requires Drifts(a, b, t, quiet)
    ensures Roams(a, b, t, quiet)
  {
  }

  /** From `a` to `b` thread `t` went on in its section; with nobody else running, other grants lost
    * only what had run out. */
  ghost predicate Continues(a: Moment, b: Moment, t: Tid, quiet: bool) {
    && t in a.w.threads && t in b.w.threads && b.w.threads[t] == a.w.threads[t].(pc := b.w.threads[t].pc)
    && Holds(b.w.threads[t].pc) && RowsStay(a.w, b.w) && Onward(a.w, b.w) && a.faults <= b.faults
    && (quiet ==> Alone(a.w, b.w, t) && OthersSpared(a.w, b.w, b.w.threads[t].g))
    && OnlyActs(a.trace, b.trace, t)
  }

  predicate Alone(w: World, m: World, t: Tid) {
    m.locks == w.locks && m.inflight == w.inflight && m.threads - {t} == w.threads - {t}
  }

  lemma ContinuesOn(a: Moment, b: Moment, c: Moment, t: Tid, quiet: bool)
    requires Continues(a, b, t, quiet) && Continues(b, c, t, quiet)
    ensures Continues(a, c, t, quiet)
  {
    OnlyActsOn(a.trace, b.trace, c.trace, t);
    OnwardOn(a.w, b.w, c.w);
    if quiet {
      OthersSparedOn(a.w, b.w, c.w, c.w.threads[t].g);
    }
  }

  /** Inside a teardown the row stays as it is, and so does every account that is silent. */
  ghost predicate Tears(a: Moment, b: Moment, t: Tid, quiet: bool) {
    && Continues(a, b, t, quiet) && SameRow(a.w, b.w, b.w.threads[t].g)
    && StaysHushed(a.pg, b.pg, b.w.threads[t].g)
  }

  lemma TearsOn(a: Moment, b: Moment, c: Moment, t: Tid, quiet: bool)
    requires Tears(a, b, t, quiet) && Tears(b, c, t, quiet)
    ensures Tears(a, c, t, quiet)
  {
    ContinuesOn(a, b, c, t, quiet);
  }

  lemma StepDone(a: Moment, e: Event, b: Moment, c: Moment, t: Tid, quiet: bool)
    requires Reachable(a.w) && t in a.w.threads && Holds(a.w.threads[t].pc) && Own(a.w, a.w.threads[t])
    requires By(e, t) && Acting(e) && Next(a.w, e) == Some(b.w) && a.faults == b.faults && b.trace == a.trace + [e]
    requires HushSafe(a.w, b.w, a.pg, b.pg) && Drifts(b, c, t, quiet)
    ensures Continues(a, c, t, quiet) && Own(c.w, c.w.threads[t]) && a.trace + [e] <= c.trace
    ensures Acted(a.w, b.w, t) && Undisturbed(b.w, c.w, t)
    ensures !Creates(a.w.threads[t].pc) ==> StaysHushed(a.pg, c.pg, a.w.threads[t].g)
  {
    ReachableInv(a.w);
    KeepActing(a.w, e, b.w);
    RowsFollow(a.w, b.w, t);
    CallContinues(a, e, b, c, t, quiet);
    if !Creates(a.w.threads[t].pc) {
      CallHushes(a, b, c, t, quiet);
    }
  }

  /** A lockout in front of the call, which only makes accounts more silent. */
  lemma TearsAfter(a: Moment, b: Moment, c: Moment, t: Tid, quiet: bool)
    requires a.w == b.w && a.trace == b.trace && a.faults <= b.faults && (forall name :: Silent(a.pg, name) ==> Silent(b.pg, name))
    requires Tears(b, c, t, quiet)
    ensures Tears(a, c, t, quiet)
  {
  }

  lemma OthersKeepMyThread(w: World, w': World, t: Tid, u: Tid)
    requires u != t && (Moved(w, w', u) || Acted(w, w', u))
    ensures t in w.threads <==> t in w'.threads
    ensures t in w.threads ==> w'.threads[t] == w.threads[t]
  {
    if Moved(w, w', u) {
      assert t in w.threads <==> t in w.threads - {u};
      assert t in w'.threads <==> t in w'.threads - {u};
    }
  }

  lemma RowsFollow(w: World, w': World, u: Tid)
    requires Changed(w, w', u)
    ensures RowsStay(w, w')
  {
    forall g
      ensures g in w.store ==> g in w'.store && w'.store[g].db == w.store[g].db && w'.store[g].ttl == w.store[g].ttl
    {
      StatusChange(w, w', u, g);
    }
  }

  lemma SettledGrantsStay(a: Moment, b: Moment, u: Tid)
    requires Inv(a.w) && Inv(b.w) && Changed(a.w, b.w, u) && HushSafe(a.w, b.w, a.pg, b.pg)
    ensures SettledStay(a, b)
  {
    forall g | Settled(a.w, g) ensures Settled(b.w, g) && StaysHushed(a.pg, b.pg, g) {
      SettledChange(a.w, b.w, u, g);
      assert GrantInv(b.w, g);
      HushKept(a.w, b.w, a.pg, b.pg, g);
    }
  }

  /** One event of somebody else. */
  lemma OthersDrift(a: Moment, e: Event, b: Moment, t: Tid, quiet: bool)
    requires Inv(a.w) && Inv(b.w) && Next(a.w, e) == Some(b.w) && !e.Crash? && !By(e, t)
    requires quiet ==> !OfThread(e)
    requires HushSafe(a.w, b.w, a.pg, b.pg) && a.faults == b.faults && b.trace == a.trace + [e]
    ensures Drifts(a, b, t, quiet)
  {
    var u := Changes(a.w, e, b.w);
    RowsFollow(a.w, b.w, u);
    SettledGrantsStay(a, b, u);
    if OfThread(e) {
      OthersKeepMyThread(a.w, b.w, t, u);
      ChangeIsOnward(a.w, b.w, u);
    } else {
      OuterAges(a.w, e, b.w);
    }
    if t in a.w.threads && Holds(a.w.threads[t].pc) && Own(a.w, a.w.threads[t]) {
      OthersKeepMyGrant(a.w, e, b.w, t);
      assert GrantInv(a.w, a.w.threads[t].g);
      HushKept(a.w, b.w, a.pg, b.pg, a.w.threads[t].g);
    }
  }

  lemma ChangeIsOnward(w: World, w': World, u: Tid)
    requires Moved(w, w', u) || Acted(w, w', u)
    ensures Onward(w, w')
  {
  }

  /** One call of `t`, then whatever the others do. */
  lemma CallContinues(a: Moment, e: Event, b: Moment, c: Moment, t: Tid, quiet: bool)
    requires Acted(a.w, b.w, t) && a.faults == b.faults && Drifts(b, c, t, quiet)
    requires Acting(e) && b.trace == a.trace + [e]
    ensures Continues(a, c, t, quiet) && a.trace + [e] <= c.trace
    ensures Own(b.w, b.w.threads[t]) ==> Own(c.w, c.w.threads[t])
  {
    CallActs(a.trace, e, c.trace, t);
    RowsFollow(a.w, b.w, t);
    OnwardOn(a.w, b.w, c.w);
    if quiet {
      OnlyOwnSpares(a.w, b.w, a.w.threads[t].g);
      OthersSparedOn(a.w, b.w, c.w, a.w.threads[t].g);
    }
  }

  lemma CallHushes(a: Moment, b: Moment, c: Moment, t: Tid, quiet: bool)
    requires Inv(a.w) && Inv(b.w) && Acted(a.w, b.w, t) && Own(a.w, a.w.threads[t]) && !Creates(a.w.threads[t].pc)
    requires HushSafe(a.w, b.w, a.pg, b.pg) && Drifts(b, c, t, quiet)
    ensures StaysHushed(a.pg, c.pg, a.w.threads[t].g)
  {
    assert GrantInv(a.w, a.w.threads[t].g);
    HushKept(a.w, b.w, a.pg, b.pg, a.w.threads[t].g);
  }

  lemma NothingTorn(a: Moment, t: Tid, quiet: bool)
    requires t in a.w.threads && Holds(a.w.threads[t].pc) && a.w.threads[t].g in a.w.store
    ensures Tears(a, a, t, quiet)
  {
    AgedIfSame(a.w, a.w);
  }

  /** The first search of a teardown of `t`, made between `a` and `b` in the world `at`, saw PostgreSQL
    * accounts of `g` that all refuse logins and have no session at `b`. */
  ghost predicate Silences(a: Moment, b: Moment, start: World, t: Tid, g: GrantId, at: World) {
    && Searched(start, b.trace, |a.trace|, t, at) && Onward(a.w, at) && Onward(at, b.w)
    && Silenced(at, b.pg, g)
  }

  lemma SilencesFrom(a0: Moment, a: Moment, b: Moment, start: World, t: Tid, g: GrantId, at: World)
    requires Silences(a, b, start, t, g, at) && a0.trace <= a.trace && Onward(a0.w, a.w)
    ensures Silences(a0, b, start, t, g, at)
  {
    OnwardOn(a0.w, a.w, at);
    SearchedOn(start, b.trace, b.trace, |a.trace|, |a0.trace|, t, at);
  }

  lemma SilencesAfter(a0: Moment, a: Moment, b: Moment, start: World, t: Tid, g: GrantId, at: World)
    requires Silences(a, b, start, t, g, at) && a0.trace <= a.trace && Onward(a0.w, a.w)
    requires Spared(a0.w, a.w, g) && Spared(a.w, at, g)
    ensures Silences(a0, b, start, t, g, at) && Spared(a0.w, at, g)
  {
    SparedOn(a0.w, a.w, at, g);
    SilencesFrom(a0, a, b, start, t, g, at);
  }

  lemma SilencesOn(a: Moment, b: Moment, c: Moment, start: World, t: Tid, g: GrantId, at: World)
    requires Silences(a, b, start, t, g, at) && b.trace <= c.trace && Onward(b.w, c.w) && StaysHushed(b.pg, c.pg, g)
    ensures Silences(a, c, start, t, g, at)
  {
    OnwardOn(at, b.w, c.w);
    SearchedOn(start, b.trace, c.trace, |a.trace|, |a.trace|, t, at);
    SilencedStays(at, b.pg, c.pg, g);
  }

  /** The accounts found first, at `a`, are silent at `c`. */
  lemma SilencesSince(a: Moment, b: Moment, c: Moment, start: World, t: Tid, g: GrantId, quiet: bool)
    requires Searched(start, b.trace, |a.trace|, t, a.w) && Tears(a, c, t, quiet) && b.trace <= c.trace
    requires Silenced(a.w, c.pg, g)
    ensures Silences(a, c, start, t, g, a.w)
  {
    SearchedOn(start, b.trace, c.trace, |a.trace|, |a.trace|, t, a.w);
  }

  // ---- how a teardown ends -----------------------------------------------------------------------

  /** It closed the row; it could not read the row; a call failed and the row says `revoking`; a call
    * failed and so did the write of `revoking`; or everything is removed but the closing write failed. */
  datatype Fate = Completed | Unread | Noted | Unnoted | Unclosed

  /** What a teardown of `t` towards `final`, from `a` to `b`, made of the row of `g`, and the event of the
    * run and the faults that stand behind it. */
  ghost predicate Ended(a: Moment, b: Moment, t: Tid, g: GrantId, final: Status, fate: Fate) {
    && g in a.w.store && g in b.w.store
    && match fate
       case Completed => Gone(b.w, g) && b.w.store[g] == a.w.store[g].(status := final)
       case Unread => SameRow(a.w, b.w, g) && a.faults < b.faults && Records(b.trace, |a.trace|, Fetch(t, false))
       case Noted =>
         && b.w.store[g] == a.w.store[g].(status := Revoking)
         && a.faults < b.faults && Records(b.trace, |a.trace|, MarkFailed(t, true))
       case Unnoted =>
         SameRow(a.w, b.w, g) && a.faults + 2 <= b.faults && Records(b.trace, |a.trace|, MarkFailed(t, false))
       case Unclosed =>
         && SameRow(a.w, b.w, g) && Gone(b.w, g)
         && a.faults < b.faults && Records(b.trace, |a.trace|, Finish(t, false, true))
  }

  lemma EndedFrom(a0: Moment, a: Moment, b: Moment, t: Tid, g: GrantId, final: Status, fate: Fate)
    requires Ended(a, b, t, g, final, fate) && SameRow(a0.w, a.w, g) && a0.faults <= a.faults
    requires a0.trace <= a.trace <= b.trace
    ensures Ended(a0, b, t, g, final, fate)
  {
    match fate
    case Completed =>
    case Unread => RecordsOn(b.trace, b.trace, |a.trace|, |a0.trace|, Fetch(t, false));
    case Noted => RecordsOn(b.trace, b.trace, |a.trace|, |a0.trace|, MarkFailed(t, true));
    case Unnoted => RecordsOn(b.trace, b.trace, |a.trace|, |a0.trace|, MarkFailed(t, false));
    case Unclosed => RecordsOn(b.trace, b.trace, |a.trace|, |a0.trace|, Finish(t, false, true));
  }

  /** Calls inside the teardown, then its end. */
  lemma TearsThenEnds(a: Moment, b: Moment, c: Moment, t: Tid, quiet: bool, final: Status, fate: Fate)
    requires Tears(a, b, t, quiet) && Continues(b, c, t, quiet) && Ended(b, c, t, c.w.threads[t].g, final, fate)
    ensures Continues(a, c, t, quiet) && Ended(a, c, t, c.w.threads[t].g, final, fate)
  {
    ContinuesOn(a, b, c, t, quiet);
    EndedFrom(a, b, c, t, c.w.threads[t].g, final, fate);
  }

  /** Calls inside the teardown, one of which failed, then the note of the failure. */
  lemma FailureEnds(a: Moment, b: Moment, c: Moment, start: World, t: Tid, quiet: bool, final: Status, stored: bool, at: World)
    requires Tears(a, b, t, quiet) && a.faults < b.faults && Continues(b, c, t, quiet)
    requires Records(c.trace, |b.trace|, MarkFailed(t, stored)) && (!stored ==> b.faults < c.faults)
    requires var g := c.w.threads[t].g;
             g in c.w.store && c.w.store[g] == if stored then b.w.store[g].(status := Revoking) else b.w.store[g]
    ensures Continues(a, c, t, quiet) && TornDown(a, c, start, t, final, if stored then Noted else Unnoted, at)
  {
    ContinuesOn(a, b, c, t, quiet);
    RecordsOn(c.trace, c.trace, |b.trace|, |a.trace|, MarkFailed(t, stored));
  }

  /** A teardown of `t` from `a` to `b`: how it ended, and if everything went well, that the accounts its first
    * search saw, in the world `at`, are silent. */
  ghost predicate TornDown(a: Moment, b: Moment, start: World, t: Tid, final: Status, fate: Fate, at: World) {
    && t in b.w.threads && Ended(a, b, t, b.w.threads[t].g, final, fate)
    && (fate.Completed? ==> Spared(a.w, at, b.w.threads[t].g) && Silences(a, b, start, t, b.w.threads[t].g, at))
  }

  lemma TornDownFrom(a: Moment, b: Moment, c: Moment, start: World, t: Tid, quiet: bool, final: Status, fate: Fate, at: World)
    requires Tears(a, b, t, quiet) && Continues(b, c, t, quiet) && Spared(a.w, b.w, b.w.threads[t].g)
    requires TornDown(b, c, start, t, final, fate, at)
    ensures Continues(a, c, t, quiet) && TornDown(a, c, start, t, final, fate, at)
  {
    TearsThenEnds(a, b, c, t, quiet, final, fate);
    if fate.Completed? {
      SilencesAfter(a, b, c, start, t, c.w.threads[t].g, at);
    }
  }

  /** Everything was removed, then came the closing write. */
  lemma TornDownOn(a: Moment, b: Moment, c: Moment, start: World, t: Tid, quiet: bool, final: Status, fate: Fate, at: World)
    requires Tears(a, b, t, quiet) && Continues(b, c, t, quiet) && Spared(a.w, at, b.w.threads[t].g)
    requires Silences(a, b, start, t, b.w.threads[t].g, at) && StaysHushed(b.pg, c.pg, b.w.threads[t].g)
    requires Ended(b, c, t, c.w.threads[t].g, final, fate)
    ensures Continues(a, c, t, quiet) && TornDown(a, c, start, t, final, fate, at)
  {
    TearsThenEnds(a, b, c, t, quiet, final, fate);
    SilencesOn(a, b, c, start, t, c.w.threads[t].g, at);
  }
}
