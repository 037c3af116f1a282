/** When a closed row can change again: exactly when a revoke that read it before it was closed is
  * still on its way. */
module Reopening {
  import opened Names
  import opened Wrappers
  import opened Protocol
  import opened Invariant
  import opened Frames
  import opened SectionSteps
  import opened Preservation
  import opened Lifecycle

  lemma {:induction false} RunOn(w: World, es: seq<Event>, m: World, fs: seq<Event>)
    requires Run(w, es) == Some(m)
    ensures Run(w, es + fs) == Run(m, fs)
    decreases |es|
  {
    if es == [] {
      assert es + fs == fs;
    } else {
      assert (es + fs)[1..] == es[1..] + fs;
      RunOn(Next(w, es[0]).value, es[1..], m, fs);
    }
  }

  // ---- whoever holds a lock can be made to leave -----------------------------------------------

  /** How far a lock holder is from the end of its section if its next call fails. */
  function Distance(pc: Pc): nat {
    match pc
    case Releasing(_) => 0
    case Leaving(_) => 1
    case Failing => 2
    case Entering => 4
    case _ => 3
  }

  /** The next event of a lock holder whose calls fail and whose writes raise. */
  ghost function FailingEvent(w: World, u: Tid): Event
    requires u in w.threads && Holds(w.threads[u].pc) && WorkLeft(w.threads[u].pc)
  {
    var pc := w.threads[u].pc;
    if IssueOnly(pc) then FailingIssue(u, pc, Unused(w.tokenLog.Keys))
    else if Removes(pc) then FailingRemoval(u, pc)
    else if Searches(pc) then FailingSearch(u, pc)
    else OnwardEvent(u, pc)
  }

  predicate Removes(pc: Pc) {
    pc.Dropping? || pc.Confirming? || pc.RevokingTokens? || pc.DeletingRole?
  }

  predicate Searches(pc: Pc) {
    pc.Scanning? || pc.Finding? || pc.LockingOut? || pc.Listing? || pc.RevokingLeases? || pc.FindingAgain?
  }

  ghost function FailingIssue(u: Tid, pc: Pc, acc: Accessor): Event
    requires IssueOnly(pc)
  {
    match pc
    case Inserting => InsertRow(u, false)
    case WritingRole => WriteRole(u, Rejected, false)
    case CreatingToken => CreateToken(u, Rejected, false, acc)
    case StoringAccessor(_) => StoreAccessor(u, false, false)
    case ReadingCreds(_) => ReadCreds(u, Rejected, false, 0, "", 0)
    case Activating(_) => Event.Activate(u, false, false)
  }

  ghost function FailingSearch(u: Tid, pc: Pc): Event
    requires Searches(pc) && WorkLeft(pc)
  {
    match pc
    case Scanning(_, _) => ScanTokens(u, false)
    case Finding(_) => FindAccounts(u, false)
    case LockingOut(_, todo) => (var a :| a in todo; LockOut(u, a, false))
    case Listing(_) => ListLeases(u, false)
    case RevokingLeases(_, todo) => (var l :| l in todo; Event.RevokeLease(u, l, Rejected))
    case FindingAgain(_) => FindAgain(u, false)
  }

  ghost function FailingRemoval(u: Tid, pc: Pc): Event
    requires Removes(pc) && WorkLeft(pc)
  {
    match pc
    case Dropping(_, todo) => (var a :| a in todo; Drop(u, a, Rejected))
    case Confirming(_) => Confirm(u, false)
    case RevokingTokens(_, todo) => (var a :| a in todo; RevokeToken(u, a, Rejected))
    case DeletingRole(_) => Event.DeleteRole(u, Rejected)
  }

  ghost function OnwardEvent(u: Tid, pc: Pc): Event
    requires Holds(pc) && !IssueOnly(pc) && !Searches(pc) && !Removes(pc)
  {
    match pc
    case Entering => Enter(u)
    case Marking => Mark(u, false, false)
    case Rereading => Reread(u, false)
    case Fetching(_) => Fetch(u, false)
    case Finishing(_) => Finish(u, false, false)
    case Failing => MarkFailed(u, false)
    case Leaving(_) => Discard(u)
    case Releasing(_) => Release(u)
  }

  ghost function Unused(s: set<nat>): (n: nat)
    ensures n !in s
  {
    FreshExists(s);
    var n: nat :| n !in s;
    n
  }

  lemma FreshExists(s: set<nat>)
    ensures exists n: nat :: n !in s
  {
    var b := UpperBound(s);
    assert b !in s;
  }

  lemma UpperBound(s: set<nat>) returns (b: nat)
    ensures forall n :: n in s ==> n < b
  {
    if s == {} {
      b := 0;
    } else {
      var n :| n in s;
      b := UpperBound(s - {n});
      assert forall k :: k in s ==> k == n || k in s - {n};
      b := if n < b then b else n + 1;
    }
  }

  lemma IssuerFails(w: World, u: Tid)
    requires Inv(w) && u in w.threads && IssueOnly(w.threads[u].pc)
    ensures Next(w, FailingIssue(u, w.threads[u].pc, Unused(w.tokenLog.Keys))) == Some(Goto(w, u, Leaving(false)))
  {
    assert ThreadInv(w, w.threads[u]);
    if w.threads[u].pc.Activating? {
      assert w.threads[u].pc.cred in LeasesEver(w, w.threads[u].g);
    }
  }

  lemma SearchFails(w: World, u: Tid)
    requires Inv(w) && u in w.threads
    requires Searches(w.threads[u].pc) && WorkLeft(w.threads[u].pc)
    ensures Next(w, FailingSearch(u, w.threads[u].pc)) == Some(Goto(w, u, Failing))
  {
    assert ThreadInv(w, w.threads[u]);
  }

  lemma RemovalFails(w: World, u: Tid)
    requires Inv(w) && u in w.threads
    requires Removes(w.threads[u].pc) && WorkLeft(w.threads[u].pc)
    ensures Next(w, FailingRemoval(u, w.threads[u].pc)) == Some(Goto(w, u, Failing))
  {
    assert ThreadInv(w, w.threads[u]);
  }

  lemma RowAccessFails(w: World, u: Tid)
    requires Inv(w) && u in w.threads
    requires var pc := w.threads[u].pc; pc.Marking? || pc.Rereading? || pc.Fetching? || pc.Finishing? || pc.Failing?
    ensures Next(w, OnwardEvent(u, w.threads[u].pc)) == Some(Goto(w, u, Leaving(false)))
  {
    assert ThreadInv(w, w.threads[u]);
  }

  /** Such a step writes no row and moves only its thread, towards the end. */
  lemma FailingMoves(w: World, u: Tid)
    requires Inv(w) && u in w.threads && Holds(w.threads[u].pc) && WorkLeft(w.threads[u].pc)
    ensures var next := Next(w, FailingEvent(w, u)); next.Some? && Approaches(w, next.value, u)
  {
    var pc := w.threads[u].pc;
    if IssueOnly(pc) {
      IssuerFails(w, u);
      GotoApproaches(w, u, Leaving(false));
    } else if Removes(pc) || Searches(pc) {
      GuardedFails(w, u);
    } else if pc.Entering? || pc.Leaving? || pc.Releasing? {
      EdgeApproaches(w, u);
    } else {
      RowAccessFails(w, u);
      GotoApproaches(w, u, Leaving(false));
    }
  }

  /** A failing call in the guarded part of a teardown. */
  lemma GuardedFails(w: World, u: Tid)
    requires Inv(w) && u in w.threads && Holds(w.threads[u].pc) && WorkLeft(w.threads[u].pc)
    requires Removes(w.threads[u].pc) || Searches(w.threads[u].pc)
    ensures var next := Next(w, FailingEvent(w, u)); next.Some? && Approaches(w, next.value, u)
  {
    if Removes(w.threads[u].pc) {
      RemovalFails(w, u);
    } else {
      SearchFails(w, u);
    }
    GotoApproaches(w, u, Failing);
  }

  ghost predicate Approaches(w: World, m: World, u: Tid)
    requires u in w.threads
  {
    && m.store == w.store && m.threads - {u} == w.threads - {u}
    && if w.threads[u].pc.Releasing? then u !in m.threads && m.locks == w.locks - {w.threads[u].db}
       else u in m.threads && m.threads[u] == w.threads[u].(pc := m.threads[u].pc) && Holds(m.threads[u].pc)
            && m.locks == w.locks && Distance(m.threads[u].pc) < Distance(w.threads[u].pc)
  }

  lemma GotoApproaches(w: World, u: Tid, pc: Pc)
    requires u in w.threads && Holds(pc) && Distance(pc) < Distance(w.threads[u].pc)
    ensures Approaches(w, Goto(w, u, pc), u)
  {
  }

  lemma EdgeApproaches(w: World, u: Tid)
    requires u in w.threads
    requires w.threads[u].pc.Entering? || w.threads[u].pc.Leaving? || w.threads[u].pc.Releasing?
    ensures var next := Next(w, OnwardEvent(u, w.threads[u].pc)); next.Some? && Approaches(w, next.value, u)
  {
  }

  lemma {:induction false} HolderLeaves(w: World, u: Tid) returns (es: seq<Event>, m: World)
    requires Inv(w) && u in w.threads && Holds(w.threads[u].pc)
    ensures Run(w, es) == Some(m) && Inv(m)
    ensures m.store == w.store && m.threads == w.threads - {u} && m.locks == w.locks - {w.threads[u].db}
    decreases Distance(w.threads[u].pc)
  {
    assert ThreadInv(w, w.threads[u]);
    var e := FailingEvent(w, u);
    FailingMoves(w, u);
    var next := Next(w, e).value;
    Keep(w, e, next);
    assert Run(next, []) == Some(next);
    if w.threads[u].pc.Releasing? {
      es, m := [e], next;
    } else {
      assert ThreadInv(next, next.threads[u]);
      var rest;
      rest, m := HolderLeaves(next, u);
      es := [e] + rest;
      assert es[1..] == rest;
      assert next.threads[u].db == w.threads[u].db;
    }
  }

  // ---- a pending revoke can always get through ---------------------------------------------------

  ghost predicate RowChanges(w: World, es: seq<Event>, g: GrantId) {
    Run(w, es).Some? && g in w.store && (g !in Run(w, es).value.store || Run(w, es).value.store[g] != w.store[g])
  }

  ghost predicate CanChange(w: World, g: GrantId) {
    exists es :: RowChanges(w, es, g)
  }

  lemma FromMarking(w: World, t: Tid) returns (es: seq<Event>)
    requires Inv(w) && t in w.threads && w.threads[t].pc.Marking? && Closed(w, w.threads[t].g)
    ensures RowChanges(w, es, w.threads[t].g)
  {
    assert ThreadInv(w, w.threads[t]);
    es := [Mark(t, true, true)];
    var m := Next(w, es[0]).value;
    assert Run(m, []) == Some(m);
    assert es[1..] == [];
  }

  lemma FromEntering(w: World, t: Tid) returns (es: seq<Event>)
    requires Inv(w) && t in w.threads && w.threads[t].pc.Entering? && w.threads[t].op.Revoke? && Closed(w, w.threads[t].g)
    ensures RowChanges(w, es, w.threads[t].g)
  {
    var m := Next(w, Enter(t)).value;
    Keep(w, Enter(t), m);
    var rest := FromMarking(m, t);
    es := [Enter(t)] + rest;
    assert es[1..] == rest;
  }

  lemma FromFreeLock(w: World, t: Tid) returns (es: seq<Event>)
    requires Inv(w) && t in w.threads && w.threads[t].pc.Waiting? && w.threads[t].op.Revoke? && Closed(w, w.threads[t].g)
    requires w.threads[t].db !in w.locks
    ensures RowChanges(w, es, w.threads[t].g)
  {
    var m := Next(w, Acquire(t)).value;
    Keep(w, Acquire(t), m);
    var rest := FromEntering(m, t);
    es := [Acquire(t)] + rest;
    assert es[1..] == rest;
  }

  lemma FromWaiting(w: World, t: Tid) returns (es: seq<Event>)
    requires Inv(w) && t in w.threads && w.threads[t].pc.Waiting? && w.threads[t].op.Revoke? && Closed(w, w.threads[t].g)
    ensures RowChanges(w, es, w.threads[t].g)
  {
    if w.threads[t].db !in w.locks {
      es := FromFreeLock(w, t);
    } else {
      var u := w.locks[w.threads[t].db];
      var first, m := HolderLeaves(w, u);
      assert t in m.threads && m.threads[t] == w.threads[t];
      var rest := FromFreeLock(m, t);
      RunOn(w, first, m, rest);
      es := first + rest;
    }
  }

  /** In some run from here a closed row changes if and only if a revoke that passed its status check
    * has not yet written `revoking`. */
  lemma ClosedChangesIff(w: World, g: GrantId)
    requires Reachable(w) && Closed(w, g)
    ensures CanChange(w, g) <==> RevokerPending(w, g)
  {
    ReachableInv(w);
    if RevokerPending(w, g) {
      var t :| t in w.threads && RevokerOf(w.threads[t], g);
      var es;
      if w.threads[t].pc.Marking? {
        es := FromMarking(w, t);
      } else if w.threads[t].pc.Entering? {
        es := FromEntering(w, t);
      } else {
        es := FromWaiting(w, t);
      }
    }
    if CanChange(w, g) && !RevokerPending(w, g) {
      var es :| RowChanges(w, es, g);
      ClosedForGood(w, es, Run(w, es).value, g);
      assert false;
    }
  }

  // ---- it happens ----------------------------------------------------------------------------------

  lemma Onwards(w: World, e: Event, w': World)
    requires Reachable(w) && Next(w, e) == Some(w')
    ensures Reachable(w')
  {
    var start, es :| Initial(start) && Run(start, es) == Some(w);
    RunOn(start, es, w, [e]);
    assert [e][1..] == [];
  }

  /** The store holds one row, and there is nothing else anywhere. */
  predicate OnlyRow(w: World, g: GrantId, row: Row) {
    w.store == map[g := row] && w.roles == map[] && w.tokens == {} && w.leases == {} && w.accounts == {}
  }

  function FreshRow(): Row {
    Row(Postgres, TTL_MIN, Issuing, None, None, None, None)
  }

  function Revoker(g: GrantId, pc: Pc): Thread {
    Thread(Revoke, g, Postgres, pc)
  }

  /** An issue comes as far as the lock. */
  lemma IssueEnters(g: GrantId, w0: World, t: Tid) returns (w: World)
    requires IsGrantId(g) && Initial(w0)
    ensures Reachable(w) && w.store == map[] && w.roles == map[] && w.tokens == {} && w.leases == {} && w.accounts == {}
    ensures w.threads == map[t := Thread(Issue(TTL_MIN), g, Postgres, Entering)]
    ensures w.clock == w0.clock
  {
    assert Run(w0, []) == Some(w0);
    var w1 := w0.(threads := w0.threads[t := Thread(Issue(TTL_MIN), g, Postgres, Waiting)]);
    Onwards(w0, StartIssue(t, g, Postgres, TTL_MIN), w1);
    w := Goto(w1.(locks := w1.locks[Postgres := t]), t, Entering);
    Onwards(w1, Acquire(t), w);
  }

  /** It crashes right after its insert. */
  lemma IssueCrashes(g: GrantId, w: World, t: Tid) returns (m: World)
    requires Reachable(w) && w.store == map[] && w.roles == map[] && w.tokens == {} && w.leases == {} && w.accounts == {}
    requires w.threads == map[t := Thread(Issue(TTL_MIN), g, Postgres, Entering)]
    ensures Reachable(m) && OnlyRow(m, g, FreshRow()) && m.threads == map[] && m.locks == map[]
  {
    var w1 := Goto(w.(inflight := w.inflight + {g}), t, Inserting);
    Onwards(w, Enter(t), w1);
    var w2 := Goto(SetRow(w1, g, FreshRow()), t, WritingRole);
    Onwards(w1, InsertRow(t, true), w2);
    m := w2.(threads := map[], locks := map[], inflight := {});
    Onwards(w2, Crash, m);
  }

  /** Two revokes of it pass the status check. */
  lemma TwoRevokes(g: GrantId, w: World, t: Tid, u: Tid) returns (m: World)
    requires Reachable(w) && OnlyRow(w, g, FreshRow()) && w.threads == map[] && w.locks == map[] && t != u
    ensures Reachable(m) && OnlyRow(m, g, FreshRow()) && m.locks == map[]
    ensures m.threads == map[t := Revoker(g, Waiting), u := Revoker(g, Waiting)]
  {
    var w1 := w.(threads := w.threads[t := Revoker(g, Waiting)]);
    Onwards(w, StartRevoke(t, g), w1);
    m := w1.(threads := w1.threads[u := Revoker(g, Waiting)]);
    Onwards(w1, StartRevoke(u, g), m);
  }

  lemma FirstEnters(g: GrantId, w: World, t: Tid) returns (m: World)
    requires Reachable(w) && OnlyRow(w, g, FreshRow()) && w.locks == map[]
    requires t in w.threads && w.threads[t] == Revoker(g, Waiting)
    ensures Reachable(m) && OnlyRow(m, g, FreshRow()) && m.threads == w.threads[t := Revoker(g, Marking)]
  {
    var w1 := Goto(w.(locks := w.locks[Postgres := t]), t, Entering);
    Onwards(w, Acquire(t), w1);
    m := Goto(w1.(inflight := w1.inflight + {g}), t, Marking);
    Onwards(w1, Enter(t), m);
  }

  // Single steps of a teardown that finds nothing, each as the source takes it.

  lemma Marks(w: World, t: Tid) returns (m: World)
    requires Reachable(w) && t in w.threads && w.threads[t].pc == Marking && w.threads[t].g in w.store
    ensures var g := w.threads[t].g;
            Reachable(m) && m == Goto(SetRow(w, g, w.store[g].(status := Revoking)), t, Fetching(Revoked))
  {
    var g := w.threads[t].g;
    m := Goto(SetRow(w, g, w.store[g].(status := Revoking)), t, Fetching(Revoked));
    Onwards(w, Mark(t, true, true), m);
  }

  lemma Fetches(w: World, t: Tid, final: Status) returns (m: World)
    requires Reachable(w) && t in w.threads && w.threads[t].pc == Fetching(final)
    requires w.threads[t].g in w.store && w.store[w.threads[t].g].accessor == None
    ensures Reachable(m) && m == Goto(w, t, Scanning(final, w.store[w.threads[t].g].lease))
  {
    m := Goto(w, t, Scanning(final, w.store[w.threads[t].g].lease));
    Onwards(w, Fetch(t, true), m);
  }

  lemma Scans(w: World, t: Tid, final: Status, lease: Option<LeaseId>) returns (m: World)
    requires Reachable(w) && t in w.threads && w.threads[t].pc == Scanning(final, lease)
    ensures Reachable(m) && m == Goto(w, t, Finding(Td(final, Scanned(w, w.threads[t].g), lease)))
  {
    m := Goto(w, t, Finding(Td(final, Scanned(w, w.threads[t].g), lease)));
    Onwards(w, ScanTokens(t, true), m);
  }

  lemma Finds(w: World, t: Tid, td: Td) returns (m: World)
    requires Reachable(w) && t in w.threads && w.threads[t].pc == Finding(td)
    ensures Reachable(m) && m == Goto(w, t, LockOutPc(td, Found(w, w.threads[t].db, w.threads[t].g)))
  {
    m := Goto(w, t, LockOutPc(td, Found(w, w.threads[t].db, w.threads[t].g)));
    Onwards(w, FindAccounts(t, true), m);
  }

  lemma Lists(w: World, t: Tid, td: Td) returns (m: World)
    requires Reachable(w) && t in w.threads && w.threads[t].pc == Listing(td)
    ensures Reachable(m) && m == Goto(w, t, LeasePc(td, LeasesOf(w, w.threads[t].g) + Named(td.lease)))
  {
    m := Goto(w, t, LeasePc(td, LeasesOf(w, w.threads[t].g) + Named(td.lease)));
    Onwards(w, ListLeases(t, true), m);
  }

  lemma FindsAgain(w: World, t: Tid, td: Td) returns (m: World)
    requires Reachable(w) && t in w.threads && w.threads[t].pc == FindingAgain(td)
    ensures Reachable(m) && m == Goto(w, t, DropPc(td, Found(w, w.threads[t].db, w.threads[t].g)))
  {
    m := Goto(w, t, DropPc(td, Found(w, w.threads[t].db, w.threads[t].g)));
    Onwards(w, FindAgain(t, true), m);
  }

  lemma Confirms(w: World, t: Tid, td: Td) returns (m: World)
    requires Reachable(w) && t in w.threads && w.threads[t].pc == Confirming(td)
    requires Found(w, w.threads[t].db, w.threads[t].g) == {}
    ensures Reachable(m) && m == Goto(w, t, TokenPc(td.final, td.accs))
  {
    m := Goto(w, t, TokenPc(td.final, td.accs));
    Onwards(w, Confirm(t, true), m);
  }

  lemma Deletes(w: World, t: Tid, final: Status) returns (m: World)
    requires Reachable(w) && t in w.threads && w.threads[t].pc == DeletingRole(final)
    ensures Reachable(m) && m == Goto(w.(roles := w.roles - {w.threads[t].g}), t, Finishing(final))
  {
    m := Goto(w.(roles := w.roles - {w.threads[t].g}), t, Finishing(final));
    Onwards(w, Event.DeleteRole(t, Done), m);
  }

  lemma Finishes(w: World, t: Tid, final: Status) returns (m: World)
    requires Reachable(w) && t in w.threads && w.threads[t].pc == Finishing(final)
    requires w.threads[t].g in w.store && !w.threads[t].op.Issue?
    ensures var g := w.threads[t].g;
            Reachable(m) && m == Goto(SetRow(w, g, w.store[g].(status := final)), t, Leaving(true))
  {
    var g := w.threads[t].g;
    m := Goto(SetRow(w, g, w.store[g].(status := final)), t, Leaving(true));
    Onwards(w, Finish(t, true, true), m);
  }

  /** With nothing to remove the first revoke runs through and closes the row. */
  lemma FirstCloses(g: GrantId, w: World, t: Tid, row: Row) returns (m: World)
    requires Reachable(w) && OnlyRow(w, g, row) && row.accessor == None && row.lease == None
    requires t in w.threads && w.threads[t] == Revoker(g, Marking)
    ensures Reachable(m) && OnlyRow(m, g, row.(status := Revoked)) && m.threads - {t} == w.threads - {t}
  {
    var w1 := Marks(w, t);
    var w2 := FindsNothing(g, w1, t, row.(status := Revoking));
    var w3 := RemovesNothing(g, w2, t, row.(status := Revoking));
    m := Closes(g, w3, t, row.(status := Revoking));
  }

  lemma FindsNothing(g: GrantId, w: World, t: Tid, row: Row) returns (m: World)
    requires Reachable(w) && OnlyRow(w, g, row) && row.accessor == None && row.lease == None
    requires t in w.threads && w.threads[t] == Revoker(g, Fetching(Revoked))
    ensures Reachable(m) && OnlyRow(m, g, row)
    ensures m.threads == w.threads[t := Revoker(g, Listing(Td(Revoked, {}, None)))]
  {
    m := Fetches(w, t, Revoked);
    NothingFound(m, g);
    m := Scans(m, t, Revoked, None);
    NothingFound(m, g);
    m := Finds(m, t, Td(Revoked, {}, None));
  }

  lemma RemovesNothing(g: GrantId, w: World, t: Tid, row: Row) returns (m: World)
    requires Reachable(w) && OnlyRow(w, g, row)
    requires t in w.threads && w.threads[t] == Revoker(g, Listing(Td(Revoked, {}, None)))
    ensures Reachable(m) && OnlyRow(m, g, row) && m.threads == w.threads[t := Revoker(g, DeletingRole(Revoked))]
  {
    NothingFound(w, g);
    m := Lists(w, t, Td(Revoked, {}, None));
    NothingFound(m, g);
    m := FindsAgain(m, t, Td(Revoked, {}, None));
    NothingFound(m, g);
    m := Confirms(m, t, Td(Revoked, {}, None));
  }

  lemma Closes(g: GrantId, w: World, t: Tid, row: Row) returns (m: World)
    requires Reachable(w) && OnlyRow(w, g, row)
    requires t in w.threads && w.threads[t] == Revoker(g, DeletingRole(Revoked))
    ensures Reachable(m) && OnlyRow(m, g, row.(status := Revoked)) && m.threads - {t} == w.threads - {t}
  {
    m := Deletes(w, t, Revoked);
    m := Finishes(m, t, Revoked);
  }

  lemma NothingFound(w: World, g: GrantId)
    requires w.roles == map[] && w.tokens == {} && w.leases == {} && w.accounts == {}
    ensures Scanned(w, g) == {} && Found(w, Postgres, g) == {} && LeasesOf(w, g) + Named(None) == {}
    ensures w.roles - {g} == map[]
  {
  }

  /** A reachable state in which a row is closed while a revoke that read it as open still waits for
    * the lock, and a run in which that revoke turns it back to `revoking`. */
  lemma ClosedRowReopens(g: GrantId, w0: World) returns (w: World, es: seq<Event>)
    requires IsGrantId(g) && Initial(w0)
    ensures Reachable(w) && Closed(w, g) && w.store[g].status.Revoked? && RevokerPending(w, g)
    ensures RowChanges(w, es, g)
  {
    w := IssueEnters(g, w0, 0);
    w := IssueCrashes(g, w, 0);
    w := TwoRevokes(g, w, 1, 2);
    w := FirstEnters(g, w, 1);
    assert 2 in w.threads - {1};
    w := FirstCloses(g, w, 1, FreshRow());
    assert 2 in w.threads - {1};
    assert RevokerOf(w.threads[2], g);
    ClosedChangesIff(w, g);
    es :| RowChanges(w, es, g);
  }
}
