/** What one sweep of the reconciler achieves while time goes on and Vault lets things run out. */
module Convergence {
  import opened Names
  import opened Wrappers
  import opened Protocol
  import opened Invariant
  import opened Isolation

  /** No operation is under way, as after a crash. */
  predicate Idle(w: World) {
    w.threads == map[]
  }

  lemma IdleIsUnlocked(w: World)
    requires Inv(w) && Idle(w)
    ensures w.locks == map[] && w.inflight == {}
  {
  }

  predicate NeedsWorkIn(w: World, g: GrantId) {
    g in w.store && NeedsWork(w.store[g], w.clock)
  }

  /** Those of `gs` whose rows call for a teardown. */
  ghost function CalledFor(w: World, gs: set<GrantId>): set<GrantId> {
    set g | g in gs && NeedsWorkIn(w, g)
  }

  /** Grant `g` was torn down as its row in `w0` called for. */
  predicate Served(w0: World, w: World, g: GrantId) {
    g in w0.store && g in w.store && EndedRight(w0.store[g], w0.clock, w.store[g]) && Gone(w, g)
  }

  /** Grant `g` was torn down as its row came to call for between the two states. */
  predicate ServedSince(w0: World, w: World, g: GrantId) {
    g in w0.store && g in w.store && EndedRight(w0.store[g], w.clock, w.store[g]) && Gone(w, g)
  }

  /** So far only grants in `attempted` lost anything that had not run out, and those in `clean`, whose
    * visits met no fault, got what they called for. */
  ghost predicate Progress(w0: World, w: World, attempted: set<GrantId>, clean: set<GrantId>) {
    && Idle(w) && Onward(w0, w) && clean <= attempted
    && (forall g :: g !in attempted ==> Spared(w0, w, g))
    && (forall g :: g in clean ==> Served(w0, w, g))
  }

  /** What the visit of `g` does when nobody else runs. */
  ghost predicate Visited(w1: World, w2: World, g: GrantId, due: bool, tried: bool, clean: bool) {
    && (tried <==> due) && Idle(w2) && OthersSpared(w1, w2, g)
    && (!due ==> Spared(w1, w2, g))
    && (tried && clean && NeedsWorkIn(w1, g) ==> Served(w1, w2, g))
  }

  lemma ServedStays(w0: World, w1: World, w2: World, g: GrantId)
    requires Served(w0, w1, g) && Spared(w1, w2, g)
    ensures Served(w0, w2, g)
  {
    GoneStays(w1, w2, g);
  }

  lemma ServedLater(w0: World, w1: World, w2: World, g: GrantId)
    requires Spared(w0, w1, g) && Onward(w0, w1) && NeedsWorkIn(w0, g)
    requires Served(w1, w2, g)
    ensures Served(w0, w2, g)
  {
    FinalStays(w0.store[g], w0.clock, w1.clock);
  }

  lemma StillCalledFor(w0: World, w1: World, g: GrantId)
    requires Spared(w0, w1, g) && Onward(w0, w1) && NeedsWorkIn(w0, g)
    ensures NeedsWorkIn(w1, g) == NeedsWorkIn(w0, g)
  {
    FinalStays(w0.store[g], w0.clock, w1.clock);
  }

  lemma Progressed(w0: World, w1: World, w2: World, attempted: set<GrantId>, clean: set<GrantId>, g: GrantId,
                   due: bool, tried: bool, faultless: bool)
    requires Progress(w0, w1, attempted, clean) && g !in attempted && g in w0.store
    requires due == NeedsWorkIn(w0, g) && Visited(w1, w2, g, due, tried, faultless)
    ensures Progress(w0, w2, if tried then attempted + {g} else attempted,
                     if tried && faultless then clean + {g} else clean)
  {
    forall h | h !in attempted && (h == g ==> !tried) ensures Spared(w0, w2, h) {
      SparedOn(w0, w1, w2, h);
    }
    forall h | h in clean ensures Served(w0, w2, h) {
      ServedStays(w0, w1, w2, h);
    }
    if tried && faultless {
      StillCalledFor(w0, w1, g);
      ServedLater(w0, w1, w2, g);
    }
  }

  /** Every row that called for a teardown at the start got it and nothing of its grant is left; every
    * other grant kept its row and lost only what had run out. So no `issuing` or `revoking` row is left,
    * no `active` row was overdue at the start, and whatever remains belongs to an `active` row. */
  ghost predicate Converged(w0: World, w: World) {
    && w.store.Keys == w0.store.Keys
    && (forall g :: NeedsWorkIn(w0, g) ==> Served(w0, w, g))
    && (forall g :: !NeedsWorkIn(w0, g) ==> Spared(w0, w, g))
    && (forall g :: g in w.store ==> Terminal(w.store[g].status)
                                     || (w.store[g].status.Active? && !Overdue(w.store[g], w0.clock)))
    && (forall g :: !Gone(w, g) ==> g in w.store && w.store[g].status.Active?)
  }

  lemma RecoveredRow(w0: World, w: World, attempted: set<GrantId>, g: GrantId)
    requires Inv(w) && Progress(w0, w, attempted, attempted)
    requires g in attempted <==> NeedsWorkIn(w0, g)
    ensures g in w.store <==> g in w0.store
    ensures g in w.store ==> Terminal(w.store[g].status)
                             || (w.store[g].status.Active? && !Overdue(w.store[g], w0.clock))
    ensures !Gone(w, g) ==> g in w.store && w.store[g].status.Active?
  {
    assert g !in attempted ==> Spared(w0, w, g);
    assert GrantInv(w, g);
  }

  /** Once every row that called for work was served, only `active` rows have anything left. */
  lemma Recovered(w0: World, w: World, attempted: set<GrantId>)
    requires Inv(w) && Progress(w0, w, attempted, attempted)
    requires forall g :: g in attempted <==> NeedsWorkIn(w0, g)
    ensures Converged(w0, w)
  {
    forall g
      ensures g in w.store <==> g in w0.store
      ensures g in w.store ==> Terminal(w.store[g].status)
                               || (w.store[g].status.Active? && !Overdue(w.store[g], w0.clock))
      ensures !Gone(w, g) ==> g in w.store && w.store[g].status.Active?
    {
      RecoveredRow(w0, w, attempted, g);
    }
  }

  // ---- keeping account of a sweep ----------------------------------------------------------------

  /** What became of the rows that called for work: attempted, or passed over because their section was
    * open; and of those attempted, the ones whose visit met no fault. */
  datatype Sweep = Sweep(attempted: set<GrantId>, skipped: set<GrantId>, clean: set<GrantId>)

  /** After the rows in `done`, with `n` faults and the reconciliations of `begun` started so far. */
  ghost predicate SweepSoFar(w0: World, w: World, done: set<GrantId>, s: Sweep, begun: set<GrantId>, n: nat, quiet: bool) {
    && s.attempted + s.skipped == CalledFor(w0, done)
    && s.clean <= begun <= s.attempted && |s.attempted - s.clean| <= n
    && (quiet && Idle(w0) ==> s.skipped == {} && Progress(w0, w, s.attempted, s.clean))
  }

  predicate Parts(all: set<GrantId>, done: set<GrantId>, todo: set<GrantId>) {
    done !! todo && done + todo == all
  }

  lemma PartsOn(all: set<GrantId>, done: set<GrantId>, todo: set<GrantId>, g: GrantId)
    requires Parts(all, done, todo) && g in todo
    ensures g in all && g !in done && Parts(all, done + {g}, todo - {g})
  {
  }

  lemma StartsEmpty(w0: World, quiet: bool)
    ensures SweepSoFar(w0, w0, {}, Sweep({}, {}, {}), {}, 0, quiet)
  {
    AgedIfSame(w0, w0);
  }

  lemma SweepOn(w0: World, w1: World, w2: World, done: set<GrantId>, s: Sweep, begun: set<GrantId>, more: set<GrantId>,
                n: nat, g: GrantId, due: bool, tried: bool, faults: nat, quiet: bool)
    returns (next: Sweep)
    requires SweepSoFar(w0, w1, done, s, begun, n, quiet) && g !in done && g in w0.store && due == NeedsWorkIn(w0, g)
    requires tried ==> due
    requires more <= (if tried then {g} else {}) && (tried && faults == 0 ==> more == {g})
    requires quiet && Idle(w1) ==> Visited(w1, w2, g, due, tried, faults == 0)
    ensures SweepSoFar(w0, w2, done + {g}, next, begun + more, n + faults, quiet)
    ensures next.attempted == if tried then s.attempted + {g} else s.attempted
    ensures next.clean == if tried && faults == 0 then s.clean + {g} else s.clean
    ensures next.skipped == if due && !tried then s.skipped + {g} else s.skipped
  {
    next := WithVisit(s, g, due, tried, faults == 0);
    CalledForMore(w0, done, g);
    NextCovers(s, g, CalledFor(w0, done), due, tried, faults == 0);
    if quiet && Idle(w0) {
      Progressed(w0, w1, w2, s.attempted, s.clean, g, due, tried, faults == 0);
    }
  }

  function WithVisit(s: Sweep, g: GrantId, due: bool, tried: bool, clean: bool): Sweep {
    Sweep(if tried then s.attempted + {g} else s.attempted,
          if due && !tried then s.skipped + {g} else s.skipped,
          if tried && clean then s.clean + {g} else s.clean)
  }

  lemma CalledForMore(w: World, done: set<GrantId>, g: GrantId)
    requires g !in done
    ensures g !in CalledFor(w, done)
    ensures CalledFor(w, done + {g}) == if NeedsWorkIn(w, g) then CalledFor(w, done) + {g} else CalledFor(w, done)
  {
  }

  lemma NextCovers(s: Sweep, g: GrantId, called: set<GrantId>, due: bool, tried: bool, clean: bool)
    requires s.attempted + s.skipped == called && g !in called && s.clean <= s.attempted && (tried ==> due)
    ensures var next := WithVisit(s, g, due, tried, clean);
            && next.attempted + next.skipped == (if due then called + {g} else called)
            && next.clean <= next.attempted
            && |next.attempted - next.clean| <= |s.attempted - s.clean| + if clean then 0 else 1
  {
    FewFail(s.attempted, s.clean, g);
  }

  lemma FewFail(attempted: set<GrantId>, clean: set<GrantId>, g: GrantId)
    requires g !in attempted
    ensures |(attempted + {g}) - clean| <= |attempted - clean| + 1
    ensures |(attempted + {g}) - (clean + {g})| <= |attempted - clean|
  {
    Fewer((attempted + {g}) - clean, (attempted - clean) + {g});
    Fewer((attempted + {g}) - (clean + {g}), attempted - clean);
  }

  lemma Fewer(a: set<GrantId>, b: set<GrantId>)
    requires a <= b
    ensures |a| <= |b|
  {
    assert a + (b - a) == b;
  }

  /** Exactly the rows that called for work were attempted or passed over; a reconciliation was started
    * for each attempt that met no fault and for nothing that was not attempted, and no more attempts met
    * a fault than there were faults. With nobody else running none was passed over, every visit without a fault
    * did what its row called for, and grants not attempted lost only what had run out; without any
    * fault the sweep has converged. */
  ghost predicate SweepDone(w0: World, w: World, s: Sweep, begun: set<GrantId>, n: nat, quiet: bool) {
    && (forall g :: g in s.attempted + s.skipped <==> NeedsWorkIn(w0, g))
    && s.clean <= begun <= s.attempted && |s.attempted - s.clean| <= n
    && (quiet && Idle(w0) ==> s.skipped == {} && Progress(w0, w, s.attempted, s.clean))
    && (quiet && Idle(w0) && n == 0 ==> Converged(w0, w))
  }

  lemma CalledForAll(w: World, all: set<GrantId>)
    requires all == set g | g in w.store && !Terminal(w.store[g].status)
    ensures forall g :: g in CalledFor(w, all) <==> NeedsWorkIn(w, g)
  {
  }

  lemma SweepEnds(w0: World, w: World, all: set<GrantId>, s: Sweep, begun: set<GrantId>, n: nat, quiet: bool)
    requires Inv(w) && SweepSoFar(w0, w, all, s, begun, n, quiet)
    requires all == set g | g in w0.store && !Terminal(w0.store[g].status)
    ensures SweepDone(w0, w, s, begun, n, quiet)
  {
    CalledForAll(w0, all);
    if quiet && Idle(w0) && n == 0 {
      assert s.attempted == s.clean + (s.attempted - s.clean);
      Recovered(w0, w, s.attempted);
    }
  }
}
