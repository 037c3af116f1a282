/** What one thread has done in a stretch of a run: the events its trace gained. */
module Traces {
  import opened Wrappers
  import opened Protocol
  import opened Lifecycle

  /** The trace grew from `a` to `b` without an event of `t`. */
  ghost predicate Aside(a: seq<Event>, b: seq<Event>, t: Tid) {
    a <= b && forall k :: |a| <= k < |b| ==> !By(b[k], t)
  }

  /** ... with no event of `t` but entering, leaving or giving up: it called nothing and wrote nothing. */
  ghost predicate OnlyEdges(a: seq<Event>, b: seq<Event>, t: Tid) {
    a <= b && forall k :: |a| <= k < |b| && By(b[k], t) ==> AtEdge(b[k])
  }

  /** ... with no event of `t` but calls inside its section. */
  ghost predicate OnlyActs(a: seq<Event>, b: seq<Event>, t: Tid) {
    a <= b && forall k :: |a| <= k < |b| && By(b[k], t) ==> Acting(b[k])
  }

  /** The first event is `e`, and after it `t` took part only at the edges of its section. */
  ghost predicate Opens(a: seq<Event>, b: seq<Event>, t: Tid, e: Event) {
    a + [e] <= b && OnlyEdges(a + [e], b, t)
  }

  lemma AsideOn(a: seq<Event>, b: seq<Event>, c: seq<Event>, t: Tid)
    requires Aside(a, b, t) && Aside(b, c, t)
    ensures Aside(a, c, t)
  {
    forall k | |a| <= k < |c| ensures !By(c[k], t) {
      assert k < |b| ==> c[k] == b[k];
    }
  }

  lemma OnlyEdgesOn(a: seq<Event>, b: seq<Event>, c: seq<Event>, t: Tid)
    requires OnlyEdges(a, b, t) && OnlyEdges(b, c, t)
    ensures OnlyEdges(a, c, t)
  {
    forall k | |a| <= k < |c| && By(c[k], t) ensures AtEdge(c[k]) {
      assert k < |b| ==> c[k] == b[k];
    }
  }

  lemma OnlyActsOn(a: seq<Event>, b: seq<Event>, c: seq<Event>, t: Tid)
    requires OnlyActs(a, b, t) && OnlyActs(b, c, t)
    ensures OnlyActs(a, c, t)
  {
    forall k | |a| <= k < |c| && By(c[k], t) ensures Acting(c[k]) {
      assert k < |b| ==> c[k] == b[k];
    }
  }

  lemma CallActs(a: seq<Event>, e: Event, c: seq<Event>, t: Tid)
    requires Acting(e) && Aside(a + [e], c, t)
    ensures OnlyActs(a, c, t) && a + [e] <= c
  {
    forall k | |a| <= k < |c| && By(c[k], t) ensures Acting(c[k]) {
      assert k == |a| ==> c[k] == (a + [e])[k];
    }
  }

  lemma OpensOn(a: seq<Event>, b: seq<Event>, c: seq<Event>, t: Tid, e: Event)
    requires Opens(a, b, t, e) && OnlyEdges(b, c, t)
    ensures Opens(a, c, t, e)
  {
    OnlyEdgesOn(a + [e], b, c, t);
  }

  // ---- the grants a reconciling thread took up ---------------------------------------------------

  /** The grants that `t` has started to reconcile since the trace had length `n`. */
  ghost function Begun(trace: seq<Event>, n: nat, t: Tid): set<GrantId> {
    set k | n <= k < |trace| && trace[k].StartReconcile? && trace[k].t == t :: trace[k].g
  }

  lemma BegunOn(a: seq<Event>, b: seq<Event>, n: nat, t: Tid)
    requires a <= b && n <= |a|
    ensures Begun(b, n, t) == Begun(a, n, t) + Begun(b, |a|, t)
  {
    forall g ensures g in Begun(b, n, t) <==> g in Begun(a, n, t) + Begun(b, |a|, t) {
      if g in Begun(b, n, t) {
        var k :| n <= k < |b| && b[k].StartReconcile? && b[k].t == t && b[k].g == g;
        assert k < |a| ==> a[k] == b[k];
      }
      if g in Begun(a, n, t) {
        var k :| n <= k < |a| && a[k].StartReconcile? && a[k].t == t && a[k].g == g;
        assert b[k] == a[k];
      }
    }
  }

  lemma NoneBegun(a: seq<Event>, b: seq<Event>, t: Tid)
    requires Aside(a, b, t) || OnlyEdges(a, b, t) || OnlyActs(a, b, t)
    ensures Begun(b, |a|, t) == {}
  {
  }

  /** One reconciliation, from its start to its end. */
  lemma OneBegun(a: seq<Event>, b: seq<Event>, c: seq<Event>, d: seq<Event>, t: Tid, g: GrantId)
    requires Opens(a, b, t, StartReconcile(t, g)) && OnlyActs(b, c, t) && OnlyEdges(c, d, t)
    ensures a <= d && Begun(d, |a|, t) == {g}
  {
    var e := StartReconcile(t, g);
    assert a + [e] <= d && d[|a|] == e;
    forall k | |a| < k < |d| ensures !(d[k].StartReconcile? && d[k].t == t) {
      assert k < |b| ==> d[k] == b[k];
      assert |b| <= k < |c| ==> d[k] == c[k];
    }
    assert g in Begun(d, |a|, t);
  }

  /** It gave up before it had the lock. */
  lemma GivenUp(a: seq<Event>, b: seq<Event>, t: Tid, g: GrantId)
    requires Opens(a, b, t, StartReconcile(t, g))
    ensures a <= b && Begun(b, |a|, t) == {g}
  {
    OneBegun(a, b, b, b, t, g);
  }

  // ---- what a search saw -----------------------------------------------------------------------

  /** `at` is the world at some point since the trace had length `n`, at which the first search for
    * accounts in a teardown of `t` succeeded. */
  ghost predicate Searched(start: World, trace: seq<Event>, n: nat, t: Tid, at: World) {
    exists k :: n <= k < |trace| && trace[k] == FindAccounts(t, true) && Run(start, trace[..k]) == Some(at)
  }

  lemma SearchedHere(start: World, a: seq<Event>, b: seq<Event>, t: Tid, at: World)
    requires Run(start, a) == Some(at) && a + [FindAccounts(t, true)] <= b
    ensures Searched(start, b, |a|, t, at)
  {
    assert b[|a|] == (a + [FindAccounts(t, true)])[|a|];
    assert b[..|a|] == a;
  }

  lemma SearchedOn(start: World, a: seq<Event>, b: seq<Event>, n: nat, m: nat, t: Tid, at: World)
    requires Searched(start, a, n, t, at) && a <= b && m <= n
    ensures Searched(start, b, m, t, at)
  {
    var k :| n <= k < |a| && a[k] == FindAccounts(t, true) && Run(start, a[..k]) == Some(at);
    assert b[k] == a[k] && b[..k] == a[..k];
  }

  // ---- single events of the run ------------------------------------------------------------------

  /** The run has event `e` since the trace had length `n`. */
  ghost predicate Records(trace: seq<Event>, n: nat, e: Event) {
    exists k :: n <= k < |trace| && trace[k] == e
  }

  lemma RecordsHere(a: seq<Event>, b: seq<Event>, e: Event)
    requires a + [e] <= b
    ensures Records(b, |a|, e)
  {
    assert b[|a|] == (a + [e])[|a|];
  }

  lemma RecordsOn(a: seq<Event>, b: seq<Event>, n: nat, m: nat, e: Event)
    requires Records(a, n, e) && a <= b && m <= n
    ensures Records(b, m, e)
  {
    var k :| n <= k < |a| && a[k] == e;
    assert b[k] == e;
  }

  /** `t` gave up waiting while somebody held the lock of `db`. */
  ghost predicate Refused(start: World, trace: seq<Event>, n: nat, t: Tid, db: Db) {
    exists k :: n <= k < |trace| && trace[k] == GiveUp(t)
                && Run(start, trace[..k]).Some? && db in Run(start, trace[..k]).value.locks
  }

  lemma RefusedHere(start: World, a: seq<Event>, n: nat, b: seq<Event>, w: World, t: Tid, db: Db)
    requires Run(start, a) == Some(w) && n <= |a| && a + [GiveUp(t)] <= b && db in w.locks
    ensures Refused(start, b, n, t, db)
  {
    assert b[|a|] == (a + [GiveUp(t)])[|a|];
    assert b[..|a|] == a;
  }

  lemma RefusedOn(start: World, a: seq<Event>, b: seq<Event>, n: nat, m: nat, t: Tid, db: Db)
    requires Refused(start, a, n, t, db) && a <= b && m <= n
    ensures Refused(start, b, m, t, db)
  {
    var k :| n <= k < |a| && a[k] == GiveUp(t) && Run(start, a[..k]).Some? && db in Run(start, a[..k]).value.locks;
    assert b[k] == a[k] && b[..k] == a[..k];
  }

  /** `t` tried to insert a row under an id that was taken. */
  ghost predicate Taken(start: World, trace: seq<Event>, n: nat, t: Tid, g: GrantId) {
    exists k :: n <= k < |trace| && trace[k] == InsertRow(t, true)
                && Run(start, trace[..k]).Some? && g in Run(start, trace[..k]).value.store
  }

  lemma TakenHere(start: World, a: seq<Event>, b: seq<Event>, w: World, t: Tid, g: GrantId)
    requires Run(start, a) == Some(w) && a + [InsertRow(t, true)] <= b && g in w.store
    ensures Taken(start, b, |a|, t, g)
  {
    assert b[|a|] == (a + [InsertRow(t, true)])[|a|];
    assert b[..|a|] == a;
  }

  lemma TakenOn(start: World, a: seq<Event>, b: seq<Event>, n: nat, m: nat, t: Tid, g: GrantId)
    requires Taken(start, a, n, t, g) && a <= b && m <= n
    ensures Taken(start, b, m, t, g)
  {
    var k :| n <= k < |a| && a[k] == InsertRow(t, true) && Run(start, a[..k]).Some? && g in Run(start, a[..k]).value.store;
    assert b[k] == a[k] && b[..k] == a[..k];
  }

  /** A call of `issue` failed and so did the audit write of its error handler. */
  predicate HandlerRaises(e: Event, t: Tid) {
    match e
    case WriteRole(u, o, audited) => u == t && !o.Done? && !audited
    case CreateToken(u, o, audited, _) => u == t && !o.Done? && !audited
    case StoreAccessor(u, ok, audited) => u == t && !ok && !audited
    case ReadCreds(u, o, audited, _, _, _) => u == t && !o.Done? && !audited
    case Activate(u, ok, audited) => u == t && !ok && !audited
    case _ => false
  }

  ghost predicate HandlerRaised(trace: seq<Event>, n: nat, t: Tid) {
    exists k :: n <= k < |trace| && HandlerRaises(trace[k], t)
  }

  lemma RaisedHere(a: seq<Event>, e: Event, b: seq<Event>, t: Tid)
    requires a + [e] <= b && HandlerRaises(e, t)
    ensures HandlerRaised(b, |a|, t)
  {
    assert b[|a|] == (a + [e])[|a|];
  }

  lemma RaisedOn(a: seq<Event>, b: seq<Event>, n: nat, m: nat, t: Tid)
    requires HandlerRaised(a, n, t) && a <= b && m <= n
    ensures HandlerRaised(b, m, t)
  {
    var k :| n <= k < |a| && HandlerRaises(a[k], t);
    assert b[k] == a[k];
  }

  // ---- what was in flight ------------------------------------------------------------------------

  /** At some point since the trace had length `n`, each of the grants was in the in-flight set. */
  ghost predicate InFlight(start: World, trace: seq<Event>, n: nat, grants: set<GrantId>) {
    forall g :: g in grants ==> FlewSince(start, trace, n, g)
  }

  ghost predicate FlewSince(start: World, trace: seq<Event>, n: nat, g: GrantId) {
    exists k :: n <= k <= |trace| && Run(start, trace[..k]).Some? && g in Run(start, trace[..k]).value.inflight
  }

  lemma InFlightOn(start: World, a: seq<Event>, b: seq<Event>, n: nat, grants: set<GrantId>)
    requires InFlight(start, a, n, grants) && a <= b
    ensures InFlight(start, b, n, grants)
  {
    forall g | g in grants ensures FlewSince(start, b, n, g) {
      var k :| n <= k <= |a| && Run(start, a[..k]).Some? && g in Run(start, a[..k]).value.inflight;
      assert b[..k] == a[..k];
    }
  }

  /** One more grant, in flight when the trace was `a`. */
  lemma OneMoreFlew(start: World, a: seq<Event>, b: seq<Event>, n: nat, grants: set<GrantId>, w: World, g: GrantId)
    requires InFlight(start, a, n, grants) && a <= b && n <= |a| && Run(start, a) == Some(w) && g in w.inflight
    ensures InFlight(start, b, n, grants + {g})
  {
    InFlightOn(start, a, b, n, grants);
    assert b[..|a|] == a;
  }
}
