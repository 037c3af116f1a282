/** `grants.py` in its own form: methods that call out step by step. Every call is one event of the
  * protocol, so each execution is a run of the transition system; between any two calls other
  * threads, Vault and the databases' clients may take any number of steps. */
module Portal {
  import opened Names
  import opened Wrappers
  import opened Protocol
  import opened Invariant
  import opened Frames
  import opened SectionSteps
  import opened Preservation
  import opened Isolation
  import opened Lifecycle
  import opened Reopening
  import opened Convergence
  import opened Lockout
  import opened Hush
  import opened Traces
  import opened Moments
  import opened Calls

  datatype OpError = BadTtl | NoSuchGrant | LockBusy | CallFailed

  class Portal {
    var w: World
    var pg: Pg
    var faults: nat
    ghost const start: World
    ghost var trace: seq<Event>
    const quiet: bool // no other thread runs; time passes and Vault lets things run out all the same

    ghost predicate Valid()
      reads this
    {
      Initial(start) && Run(start, trace) == Some(w)
    }

    ghost function Now(): Moment
      reads this
    {
      Moment(w, pg, faults, trace)
    }

    constructor (quiet: bool, w: World, pg: Pg, ghost start: World, ghost trace: seq<Event>)
      requires Initial(start) && Run(start, trace) == Some(w)
      ensures Valid() && Now() == Moment(w, pg, 0, trace) && this.quiet == quiet
    {
      this.quiet, this.w, this.pg, this.faults, this.start, this.trace := quiet, w, pg, 0, start, trace;
    }

    lemma Sound()
      requires Valid()
      ensures Inv(w) && Reachable(w)
    {
      ReachableInv(w);
    }

    lemma Attained()
      requires Valid()
      ensures Reachable(w)
    {
    }

    method Do(e: Event)
      requires Valid() && Next(w, e).Some?
      modifies this`w, this`trace
      ensures Valid() && Next(old(w), e) == Some(w) && trace == old(trace) + [e]
    {
      RunOn(start, trace, w, [e]);
      assert [e][1..] == [];
      w, trace := Next(w, e).value, trace + [e];
    }

    /** A read, a write or a check that may raise. */
    method Succeeds() returns (ok: bool)
      modifies this`faults
      ensures faults == old(faults) + if ok then 0 else 1
    {
      ok := *;
      if !ok {
        faults := faults + 1;
      }
    }

    method Calls() returns (o: Outcome)
      modifies this`faults
      ensures faults == old(faults) + if o.Done? then 0 else 1
    {
      o := *;
      if !o.Done? {
        faults := faults + 1;
      }
    }

    /** The databases' clients, and the managers' statements for other accounts, act while the world
      * moves on from `before`. */
    method Clients(before: World)
      modifies this`pg
      ensures HushSafe(before, w, old(pg), pg)
    {
      var n: nat := *;
      while n > 0
        invariant HushSafe(before, w, old(pg), pg)
      {
        var name: string := *;
        var d: Deed := *;
        DeedIsSafe(pg, name, d, before, w);
        pg := After(pg, name, d, before, w);
        n := n - 1;
      }
    }

    /** Any number of steps of everybody but `t`. */
    method Others(t: Tid)
      requires Valid()
      modifies this`w, this`trace, this`pg
      ensures Valid() && Drifts(old(Now()), Now(), t, quiet)
    {
      NoDrift(Now(), t, quiet);
      var n: nat := *;
      while n > 0
        invariant Valid() && Drifts(old(Now()), Now(), t, quiet)
      {
        var e: Event := *;
        if Next(w, e).Some? && !e.Crash? && !By(e, t) && (quiet ==> !OfThread(e)) {
          ghost var a := Now();
          Sound();
          var before := w;
          Do(e);
          Clients(before);
          Sound();
          OthersDrift(a, e, Now(), t, quiet);
          DriftsOn(old(Now()), a, Now(), t, quiet);
        }
        n := n - 1;
      }
    }

    // ---- one call at a time ------------------------------------------------------------------

    /** Thread `t` is inside its section and owns its grant. */
    ghost predicate Running(t: Tid)
      reads this
    {
      Valid() && t in w.threads && Holds(w.threads[t].pc) && Own(w, w.threads[t])
    }

    function PcOf(t: Tid): Pc
      requires t in w.threads
      reads this
    {
      w.threads[t].pc
    }

    function RowOf(t: Tid): Row
      requires t in w.threads && w.threads[t].g in w.store
      reads this
    {
      w.store[w.threads[t].g]
    }

    /** One call of `t`, then whatever the others do, whether or not the grant is `t`'s already. */
    method Act(t: Tid, e: Event) returns (ghost m: World)
      requires Valid() && Acting(e) && Next(w, e).Some? && Acted(w, Next(w, e).value, t)
      modifies this`w, this`trace, this`pg
      ensures Valid() && Next(old(w), e) == Some(m) && Continues(old(Now()), Now(), t, quiet)
      ensures w.threads[t] == m.threads[t] && old(trace) + [e] <= trace && (quiet ==> Aged(m, w))
      ensures Own(m, m.threads[t]) ==> Own(w, w.threads[t]) && SameRow(m, w, w.threads[t].g)
    {
      ghost var a := Now();
      var before := w;
      Do(e);
      m := w;
      Clients(before);
      ghost var b := Now();
      Others(t);
      CallContinues(a, e, b, Now(), t, quiet);
    }

    /** One call of `t`, then whatever the others do. */
    method Step(t: Tid, e: Event) returns (ghost m: World)
      requires Running(t) && By(e, t) && Acting(e) && Next(w, e).Some?
      modifies this`w, this`trace, this`pg
      ensures Running(t) && Continues(old(Now()), Now(), t, quiet) && faults == old(faults)
      ensures Next(old(w), e) == Some(m) && Undisturbed(m, w, t)
      ensures old(trace) + [e] <= trace
      ensures !Creates(old(PcOf(t))) ==> StaysHushed(old(pg), pg, w.threads[t].g)
    {
      ghost var a := Now();
      Attained();
      var before := w;
      Do(e);
      m := w;
      Clients(before);
      ghost var b := Now();
      assert b.w == m && b.trace == a.trace + [e] && HushSafe(a.w, b.w, a.pg, b.pg);
      Others(t);
      StepDone(a, e, b, Now(), t, quiet);
    }

    /** A call that only reads, and leads to `pc`. */
    method Look(t: Tid, e: Event, ghost pc: Pc)
      requires Running(t) && By(e, t) && Acting(e) && Next(w, e) == Some(Goto(w, t, pc)) && !Creates(PcOf(t))
      modifies this`w, this`trace, this`pg
      ensures Running(t) && Tears(old(Now()), Now(), t, quiet) && faults == old(faults) && PcOf(t) == pc
      ensures Spared(old(w), w, w.threads[t].g) && (quiet ==> Aged(old(w), w))
      ensures old(trace) + [e] <= trace
    {
      ghost var m := Step(t, e);
      AgedIfSame(old(w), m);
      SparedOn(old(w), m, w, w.threads[t].g);
      if quiet {
        LookAges(old(w), m, w, w.threads[t].g);
      }
    }

    lemma LookAges(w0: World, m: World, n: World, g: GrantId)
      requires Aged(w0, m) && Spared(w0, n, g) && OthersSpared(w0, n, g)
      ensures Aged(w0, n)
    {
    }

    method GetGrant(t: Tid) returns (ok: bool)
      requires Running(t) && PcOf(t).Fetching?
      modifies this
      ensures Running(t) && Tears(old(Now()), Now(), t, quiet)
      ensures PcOf(t) == if ok then AfterFetch(RowOf(t), old(PcOf(t)).final) else Leaving(false)
      ensures Spared(old(w), w, w.threads[t].g)
      ensures Records(trace, |old(trace)|, Fetch(t, ok)) && (faults == old(faults) ==> ok)
    {
      ok := Succeeds();
      ghost var before := trace;
      Look(t, Fetch(t, ok), if ok then AfterFetch(RowOf(t), PcOf(t).final) else Leaving(false));
      RecordsHere(before, trace, Fetch(t, ok));
    }

    method FindTokenAccessors(t: Tid) returns (ok: bool, accs: set<Accessor>)
      requires Running(t) && PcOf(t).Scanning?
      modifies this
      ensures Running(t) && Tears(old(Now()), Now(), t, quiet)
      ensures PcOf(t) == if ok then Finding(Td(old(PcOf(t)).final, accs, old(PcOf(t)).lease)) else Failing
      ensures Spared(old(w), w, w.threads[t].g)
      ensures faults == old(faults) ==> ok
    {
      ok := Succeeds();
      accs := Scanned(w, w.threads[t].g);
      Look(t, ScanTokens(t, ok), if ok then Finding(Td(PcOf(t).final, accs, PcOf(t).lease)) else Failing);
    }

    /** The first search; it finds exactly the accounts of the grant. */
    method FirstAccounts(t: Tid) returns (ok: bool, accounts: set<Account>)
      requires Running(t) && PcOf(t).Finding?
      modifies this
      ensures Running(t) && Tears(old(Now()), Now(), t, quiet)
      ensures PcOf(t) == if ok then LockOutPc(old(PcOf(t)).td, accounts) else Failing
      ensures accounts == AccountsOf(old(w), w.threads[t].g)
      ensures ok ==> Searched(start, trace, |old(trace)|, t, old(w))
      ensures faults == old(faults) ==> ok
    {
      Attained();
      ok := Succeeds();
      accounts := Found(w, w.threads[t].db, w.threads[t].g);
      FindResult(w, t, ok);
      Look(t, FindAccounts(t, ok), if ok then LockOutPc(PcOf(t).td, accounts) else Failing);
      if ok {
        SearchedHere(start, old(trace), trace, t, old(w));
      }
    }

    /** The loop that locks out and terminates, with the clients of the account acting all the while. It fails
      * only if one of its calls fails or a session outlives the deadline. */
    method TurnOut(db: Db, account: Account, env: Env) returns (ok: bool)
      requires ValidAccount(NameOf(account))
      modifies this`pg, this`faults
      ensures faults == old(faults) + if ok then 0 else 1
      ensures ok && db.Postgres? ==> Hushed(pg, account)
      ensures forall name :: Silent(old(pg), name) ==> Silent(pg, name)
      ensures !ok ==> db.Postgres? && (SomeFailed(env, old(pg).step, pg.step) || pg.clock > old(pg).clock + DEADLINE)
      ensures db.Postgres? && AllWorks(env) ==> ok
    {
      var cluster := new Cluster(pg, env);
      var r := cluster.LockOutAndTerminate(db, NameOf(account));
      pg := cluster.s;
      ok := r.Ok?;
      if !ok {
        assert r.error.CallFailed? || r.error.StillAlive?;
        faults := faults + 1;
      }
    }

    /** A normal return on PostgreSQL means that the account refuses logins and has no session. */
    method LockOutAndTerminate(t: Tid, account: Account) returns (ok: bool)
      requires Running(t) && PcOf(t).LockingOut? && account in PcOf(t).accounts
      modifies this
      ensures Running(t) && Tears(old(Now()), Now(), t, quiet)
      ensures PcOf(t) == if ok then LockOutPc(old(PcOf(t)).td, old(PcOf(t)).accounts - {account}) else Failing
      ensures ok && w.threads[t].db.Postgres? ==> Hushed(pg, account)
      ensures faults == old(faults) ==> ok
    {
      Attained();
      ghost var a := Now();
      FoundNameIsValid(w, t, account);
      var env: Env := *;
      ok := TurnOut(w.threads[t].db, account, env);
      ghost var b := Now();
      LockOutResult(w, t, account, ok);
      Look(t, LockOut(t, account, ok), if ok then LockOutPc(PcOf(t).td, PcOf(t).accounts - {account}) else Failing);
      TearsAfter(a, b, Now(), t, quiet);
    }

    method AllLeases(t: Tid) returns (ok: bool, leases: set<LeaseId>)
      requires Running(t) && PcOf(t).Listing?
      modifies this
      ensures Running(t) && Tears(old(Now()), Now(), t, quiet)
      ensures PcOf(t) == if ok then LeasePc(old(PcOf(t)).td, leases) else Failing
      ensures faults == old(faults) ==> ok
    {
      ok := Succeeds();
      leases := LeasesOf(w, w.threads[t].g) + Named(PcOf(t).td.lease);
      Look(t, ListLeases(t, ok), if ok then LeasePc(PcOf(t).td, leases) else Failing);
    }

    method RevokeLease(t: Tid, cred: LeaseId) returns (ok: bool)
      requires Running(t) && PcOf(t).RevokingLeases? && cred in PcOf(t).leases
      modifies this
      ensures Running(t) && Tears(old(Now()), Now(), t, quiet)
      ensures PcOf(t) == if ok then LeasePc(old(PcOf(t)).td, old(PcOf(t)).leases - {cred}) else Failing
      ensures faults == old(faults) ==> ok
    {
      var o := Calls();
      ok := o.Done?;
      RevokeLeaseResult(w, t, cred, o);
      ghost var m := Step(t, Event.RevokeLease(t, cred, o));
    }

    method SecondAccounts(t: Tid) returns (ok: bool, accounts: set<Account>)
      requires Running(t) && PcOf(t).FindingAgain?
      modifies this
      ensures Running(t) && Tears(old(Now()), Now(), t, quiet)
      ensures PcOf(t) == if ok then DropPc(old(PcOf(t)).td, accounts) else Failing
      ensures faults == old(faults) ==> ok
    {
      ok := Succeeds();
      accounts := Found(w, w.threads[t].db, w.threads[t].g);
      Look(t, FindAgain(t, ok), if ok then DropPc(PcOf(t).td, accounts) else Failing);
    }

    /** Lock out, terminate, drop. */
    method DropAccount(t: Tid, account: Account) returns (ok: bool)
      requires Running(t) && PcOf(t).Dropping? && account in PcOf(t).accounts
      modifies this
      ensures Running(t) && Tears(old(Now()), Now(), t, quiet)
      ensures PcOf(t) == if ok then DropPc(old(PcOf(t)).td, old(PcOf(t)).accounts - {account}) else Failing
      ensures ok && w.threads[t].db.Postgres? ==> Hushed(pg, account)
      ensures faults == old(faults) ==> ok
    {
      Sound();
      assert ThreadInv(w, w.threads[t]);
      ProperIsValid(w.threads[t].g, PcOf(t).accounts, account);
      ghost var a := Now();
      var env: Env := *;
      var out := TurnOut(w.threads[t].db, account, env);
      var o := Rejected;
      if out {
        o := Calls();
      }
      ok := o.Done?;
      ghost var b := Now();
      TakeDrop(t, account, o);
      TearsAfter(a, b, Now(), t, quiet);
    }

    method TakeDrop(t: Tid, account: Account, o: Outcome)
      requires Running(t) && PcOf(t).Dropping? && account in PcOf(t).accounts && ValidAccount(NameOf(account))
      requires account.grant == w.threads[t].g
      modifies this`w, this`trace, this`pg
      ensures Running(t) && Tears(old(Now()), Now(), t, quiet) && faults == old(faults)
      ensures PcOf(t) == if o.Done? then DropPc(old(PcOf(t)).td, old(PcOf(t)).accounts - {account}) else Failing
    {
      ghost var m := Step(t, Drop(t, account, o));
    }

    method ConfirmGone(t: Tid) returns (ok: bool)
      requires Running(t) && PcOf(t).Confirming?
      modifies this
      ensures Running(t) && Tears(old(Now()), Now(), t, quiet)
      ensures PcOf(t) == if ok then TokenPc(old(PcOf(t)).td.final, old(PcOf(t)).td.accs) else Failing
      ensures faults == old(faults) ==> ok
    {
      Attained();
      ok := Succeeds();
      ConfirmResult(w, t, ok);
      Look(t, Confirm(t, ok), if ok then TokenPc(PcOf(t).td.final, PcOf(t).td.accs) else Failing);
    }

    method RevokeAccessor(t: Tid, acc: Accessor) returns (ok: bool)
      requires Running(t) && PcOf(t).RevokingTokens? && acc in PcOf(t).accs
      modifies this
      ensures Running(t) && Tears(old(Now()), Now(), t, quiet)
      ensures PcOf(t) == if ok then TokenPc(old(PcOf(t)).final, old(PcOf(t)).accs - {acc}) else Failing
      ensures faults == old(faults) ==> ok
    {
      var o := Calls();
      ok := o.Done?;
      ghost var m := Step(t, RevokeToken(t, acc, o));
    }

    method DeleteRole(t: Tid) returns (ok: bool)
      requires Running(t) && PcOf(t).DeletingRole?
      modifies this
      ensures Running(t) && Tears(old(Now()), Now(), t, quiet)
      ensures PcOf(t) == if ok then Finishing(old(PcOf(t)).final) else Failing
      ensures faults == old(faults) ==> ok
    {
      var o := Calls();
      ok := o.Done?;
      ghost var m := Step(t, Event.DeleteRole(t, o));
    }

    // ---- teardown ----------------------------------------------------------------------------

    /** The guarded part of `_teardown`: from the row that was read to the deleted Vault role. `at` is the
      * world its first search saw: until then only what had run out was gone, and at the end every
      * PostgreSQL account it saw is silent. */
    method TryTeardown(t: Tid, ghost final: Status) returns (ok: bool, ghost at: World)
      requires Running(t)
      requires PcOf(t) == AfterFetch(RowOf(t), final)
      modifies this
      ensures Running(t) && Tears(old(Now()), Now(), t, quiet)
      ensures PcOf(t) == if ok then Finishing(final) else Failing
      ensures ok ==> Spared(old(w), at, w.threads[t].g) && Silences(old(Now()), Now(), start, t, w.threads[t].g, at)
      ensures faults == old(faults) ==> ok
    {
      ghost var a := Now();
      ghost var lease := RowOf(t).lease;
      at := w;
      var accs;
      ok, accs := TokensToRevoke(t, final);
      if !ok { return; }
      ghost var td := Td(final, accs, lease);
      at := w;
      ghost var b := Now();
      ok := TryOutAndRemoval(t, td);
      TearsOn(a, b, Now(), t, quiet);
      if ok {
        SilencesFrom(a, b, Now(), start, t, w.threads[t].g, at);
      }
    }

    method TryOutAndRemoval(t: Tid, ghost td: Td) returns (ok: bool)
      requires Running(t) && PcOf(t) == Finding(td)
      modifies this
      ensures Running(t) && Tears(old(Now()), Now(), t, quiet)
      ensures PcOf(t) == if ok then Finishing(td.final) else Failing
      ensures ok ==> Silences(old(Now()), Now(), start, t, w.threads[t].g, old(w))
      ensures faults == old(faults) ==> ok
    {
      ghost var a := Now();
      ok := TryLockOut(t);
      if !ok { return; }
      ghost var b := Now();
      ok := TryRemoval(t, td);
      TearsOn(a, b, Now(), t, quiet);
      SilencesOn(a, b, Now(), start, t, w.threads[t].g, a.w);
    }

    /** The accessor the row names, or those a scan finds. */
    method TokensToRevoke(t: Tid, ghost final: Status) returns (ok: bool, accs: set<Accessor>)
      requires Running(t)
      requires PcOf(t) == AfterFetch(RowOf(t), final)
      modifies this
      ensures Running(t) && Tears(old(Now()), Now(), t, quiet) && Spared(old(w), w, w.threads[t].g)
      ensures PcOf(t) == if ok then Finding(Td(final, accs, RowOf(t).lease)) else Failing
      ensures faults == old(faults) ==> ok
    {
      var row := RowOf(t);
      NothingTorn(Now(), t, quiet);
      AgedIfSame(w, w);
      ok, accs := true, if row.accessor.Some? then {row.accessor.value} else {};
      if row.accessor.None? {
        ok, accs := FindTokenAccessors(t);
      }
    }

    /** The first search, and the lockout of every account it finds. */
    method TryLockOut(t: Tid) returns (ok: bool)
      requires Running(t) && PcOf(t).Finding?
      modifies this
      ensures Running(t) && Tears(old(Now()), Now(), t, quiet)
      ensures PcOf(t) == if ok then Listing(old(PcOf(t)).td) else Failing
      ensures ok ==> Silences(old(Now()), Now(), start, t, w.threads[t].g, old(w))
      ensures faults == old(faults) ==> ok
    {
      ghost var a, td := Now(), PcOf(t).td;
      Attained();
      AccountsInDb(w, t);
      var accounts;
      ok, accounts := FirstAccounts(t);
      if !ok { return; }
      ghost var b := Now();
      ok := LockOutAll(t, accounts, td, a.w);
      TearsOn(a, b, Now(), t, quiet);
      if ok {
        SilencesSince(a, b, Now(), start, t, w.threads[t].g, quiet);
      }
    }

    /** Its loop; `at` is the world the search saw. */
    method LockOutAll(t: Tid, all: set<Account>, ghost td: Td, ghost at: World) returns (ok: bool)
      requires Running(t) && PcOf(t) == LockOutPc(td, all) && all == AccountsOf(at, w.threads[t].g)
      requires forall x :: x in all ==> x.db == w.threads[t].db
      modifies this
      ensures Running(t) && Tears(old(Now()), Now(), t, quiet)
      ensures PcOf(t) == if ok then Listing(td) else Failing
      ensures ok ==> Silenced(at, pg, w.threads[t].g)
      ensures faults == old(faults) ==> ok
    {
      ghost var a := Now();
      var accounts := all;
      ok := true;
      NothingTorn(a, t, quiet);
      while accounts != {}
        invariant Running(t) && Tears(a, Now(), t, quiet) && PcOf(t) == LockOutPc(td, accounts) && ok
        invariant accounts <= all && SilencedBut(at, pg, a.w.threads[t].g, accounts)
      {
        ghost var b := Now();
        var account :| account in accounts;
        ok := LockOutAndTerminate(t, account);
        TearsOn(a, b, Now(), t, quiet);
        if !ok { return; }
        OneMoreSilenced(at, b.pg, pg, a.w.threads[t].g, accounts, account);
        accounts := accounts - {account};
      }
    }

    /** The rest of it, once every account found is locked out. */
    method TryRemoval(t: Tid, ghost td: Td) returns (ok: bool)
      requires Running(t) && PcOf(t) == Listing(td)
      modifies this
      ensures Running(t) && Tears(old(Now()), Now(), t, quiet)
      ensures PcOf(t) == if ok then Finishing(td.final) else Failing
      ensures faults == old(faults) ==> ok
    {
      ghost var a := Now();
      ok := TryLeases(t, td);
      if !ok { return; }
      ghost var b := Now();
      ok := TryRest(t, td);
      TearsOn(a, b, Now(), t, quiet);
    }

    /** What comes after the leases: accounts, tokens and role. */
    method TryRest(t: Tid, ghost td: Td) returns (ok: bool)
      requires Running(t) && PcOf(t) == FindingAgain(td)
      modifies this
      ensures Running(t) && Tears(old(Now()), Now(), t, quiet)
      ensures PcOf(t) == if ok then Finishing(td.final) else Failing
      ensures faults == old(faults) ==> ok
    {
      ghost var a := Now();
      ok := TryAccounts(t, td);
      if !ok { return; }
      ghost var b := Now();
      ok := TryTokens(t, td.final, td.accs);
      TearsOn(a, b, Now(), t, quiet);
    }

    method TryLeases(t: Tid, ghost td: Td) returns (ok: bool)
      requires Running(t) && PcOf(t) == Listing(td)
      modifies this
      ensures Running(t) && Tears(old(Now()), Now(), t, quiet)
      ensures PcOf(t) == if ok then FindingAgain(td) else Failing
      ensures faults == old(faults) ==> ok
    {
      ghost var a := Now();
      var leases;
      ok, leases := AllLeases(t);
      if !ok { return; }
      ghost var b := Now();
      ok := RevokeLeases(t, leases, td);
      TearsOn(a, b, Now(), t, quiet);
    }

    method RevokeLeases(t: Tid, all: set<LeaseId>, ghost td: Td) returns (ok: bool)
      requires Running(t) && PcOf(t) == LeasePc(td, all)
      modifies this
      ensures Running(t) && Tears(old(Now()), Now(), t, quiet)
      ensures PcOf(t) == if ok then FindingAgain(td) else Failing
      ensures faults == old(faults) ==> ok
    {
      ghost var a := Now();
      var leases := all;
      ok := true;
      NothingTorn(a, t, quiet);
      while leases != {}
        invariant Running(t) && Tears(a, Now(), t, quiet) && PcOf(t) == LeasePc(td, leases) && ok
      {
        ghost var b := Now();
        var cred :| cred in leases;
        ok := RevokeLease(t, cred);
        TearsOn(a, b, Now(), t, quiet);
        if !ok { return; }
        leases := leases - {cred};
      }
    }

    /** What the leases left behind, and the confirmation that nothing is. */
    method TryAccounts(t: Tid, ghost td: Td) returns (ok: bool)
      requires Running(t) && PcOf(t) == FindingAgain(td)
      modifies this
      ensures Running(t) && Tears(old(Now()), Now(), t, quiet)
      ensures PcOf(t) == if ok then TokenPc(td.final, td.accs) else Failing
      ensures faults == old(faults) ==> ok
    {
      ghost var a := Now();
      var accounts;
      ok, accounts := SecondAccounts(t);
      if !ok { return; }
      while accounts != {}
        invariant Running(t) && Tears(a, Now(), t, quiet) && PcOf(t) == DropPc(td, accounts)
      {
        ghost var b := Now();
        var account :| account in accounts;
        ok := DropAccount(t, account);
        TearsOn(a, b, Now(), t, quiet);
        if !ok { return; }
        accounts := accounts - {account};
      }
      ghost var b := Now();
      ok := ConfirmGone(t);
      TearsOn(a, b, Now(), t, quiet);
    }

    /** Tokens, then the role. */
    method TryTokens(t: Tid, ghost final: Status, ghost all: set<Accessor>) returns (ok: bool)
      requires Running(t) && PcOf(t) == TokenPc(final, all)
      modifies this
      ensures Running(t) && Tears(old(Now()), Now(), t, quiet)
      ensures PcOf(t) == if ok then Finishing(final) else Failing
      ensures faults == old(faults) ==> ok
    {
      ghost var a := Now();
      var accs := if PcOf(t).RevokingTokens? then PcOf(t).accs else {};
      ok := RevokeTokens(t, accs, final);
      if !ok { return; }
      ghost var b := Now();
      ok := DeleteRole(t);
      TearsOn(a, b, Now(), t, quiet);
    }

    method RevokeTokens(t: Tid, all: set<Accessor>, ghost final: Status) returns (ok: bool)
      requires Running(t) && PcOf(t) == TokenPc(final, all)
      modifies this
      ensures Running(t) && Tears(old(Now()), Now(), t, quiet)
      ensures PcOf(t) == if ok then DeletingRole(final) else Failing
      ensures faults == old(faults) ==> ok
    {
      ghost var a := Now();
      var accs := all;
      ok := true;
      NothingTorn(a, t, quiet);
      while accs != {}
        invariant Running(t) && Tears(a, Now(), t, quiet) && PcOf(t) == TokenPc(final, accs) && ok
      {
        ghost var b := Now();
        var acc :| acc in accs;
        ok := RevokeAccessor(t, acc);
        TearsOn(a, b, Now(), t, quiet);
        if !ok { return; }
        accs := accs - {acc};
      }
    }

    /** The closing write of `_teardown`. */
    method CloseRow(t: Tid) returns (ok: bool)
      requires Running(t) && PcOf(t).Finishing?
      modifies this
      ensures Running(t) && Continues(old(Now()), Now(), t, quiet) && PcOf(t).Leaving?
      ensures StaysHushed(old(pg), pg, w.threads[t].g) && Gone(w, w.threads[t].g)
      ensures RowOf(t) == if ok then old(RowOf(t)).(status := old(PcOf(t)).final) else old(RowOf(t))
      ensures !ok ==> Records(trace, |old(trace)|, Finish(t, false, true)) && faults > old(faults)
      ensures PcOf(t).done ==> ok && !w.threads[t].op.Issue?
      ensures faults == old(faults) ==> ok && PcOf(t) == Leaving(!w.threads[t].op.Issue?)
    {
      ok := Succeeds();
      var audited := true;
      if ok {
        audited := Succeeds();
      }
      TakeFinish(t, ok, audited);
      if !ok {
        RecordsHere(old(trace), trace, Finish(t, false, true));
      }
    }

    method TakeFinish(t: Tid, ok: bool, audited: bool)
      requires Running(t) && PcOf(t).Finishing?
      modifies this`w, this`trace, this`pg
      ensures Running(t) && Continues(old(Now()), Now(), t, quiet) && faults == old(faults)
      ensures StaysHushed(old(pg), pg, w.threads[t].g) && Gone(w, w.threads[t].g)
      ensures RowOf(t) == if ok then old(RowOf(t)).(status := old(PcOf(t)).final) else old(RowOf(t))
      ensures PcOf(t) == Leaving(ok && audited && !w.threads[t].op.Issue?)
      ensures old(trace) + [Finish(t, ok, audited)] <= trace
    {
      Attained();
      FinishResult(w, t, ok, audited);
      ghost var m := Step(t, Finish(t, ok, audited));
      ClosedStays(m, w, t);
    }

    /** The error path of `_teardown`: the row says `revoking` from now on, unless that write raises too. */
    method NoteFailure(t: Tid) returns (stored: bool)
      requires Running(t) && PcOf(t).Failing?
      modifies this
      ensures Running(t) && Continues(old(Now()), Now(), t, quiet) && PcOf(t) == Leaving(false)
      ensures RowOf(t) == if stored then old(RowOf(t)).(status := Revoking) else old(RowOf(t))
      ensures Records(trace, |old(trace)|, MarkFailed(t, stored)) && (faults == old(faults) ==> stored)
    {
      stored := Succeeds();
      ghost var m := Step(t, MarkFailed(t, stored));
      RecordsHere(old(trace), trace, MarkFailed(t, stored));
      if stored {
        var audited := Succeeds();
      }
    }

    /** `_teardown`, from any state a run can reach, so also after any earlier attempt cut short:
      * if it succeeds, nothing of the grant is left, the row is closed and the accounts its first search
      * saw are silent. It fails only if a call fails; and once the row was read, a failure leaves it
      * `revoking` unless the note of the failure, or after everything is gone the closing write, fails. */
    method Teardown(t: Tid) returns (ok: bool, ghost at: World, ghost fate: Fate)
      requires Running(t) && PcOf(t).Fetching?
      modifies this
      ensures Running(t) && Continues(old(Now()), Now(), t, quiet) && PcOf(t).Leaving?
      ensures TornDown(old(Now()), Now(), start, t, old(PcOf(t)).final, fate, at) && (ok <==> fate.Completed?)
      ensures PcOf(t).done ==> ok && !w.threads[t].op.Issue?
      ensures faults == old(faults) ==> ok && PcOf(t) == Leaving(!w.threads[t].op.Issue?)
    {
      ghost var a := Now();
      at, fate := w, Unread;
      ok := GetGrant(t);
      if !ok { return; }
      ghost var b := Now();
      ok, at, fate := TearDownRow(t, a.w.threads[t].pc.final);
      TornDownFrom(a, b, Now(), start, t, quiet, a.w.threads[t].pc.final, fate, at);
    }

    /** From the row that was read to the closing write or the note of the failure. */
    method TearDownRow(t: Tid, ghost final: Status) returns (ok: bool, ghost at: World, ghost fate: Fate)
      requires Running(t)
      requires PcOf(t) == AfterFetch(RowOf(t), final)
      modifies this
      ensures Running(t) && Continues(old(Now()), Now(), t, quiet) && PcOf(t).Leaving?
      ensures TornDown(old(Now()), Now(), start, t, final, fate, at) && !fate.Unread? && (ok <==> fate.Completed?)
      ensures PcOf(t).done ==> ok && !w.threads[t].op.Issue?
      ensures faults == old(faults) ==> ok && PcOf(t) == Leaving(!w.threads[t].op.Issue?)
    {
      ghost var a := Now();
      ok, at := TryTeardown(t, final);
      ok, fate := FinishTeardown(t, ok, final, a, at);
    }

    /** The closing write, or the note of the failure, of a teardown that began to work at `a`. */
    method FinishTeardown(t: Tid, removed: bool, ghost final: Status, ghost a: Moment, ghost at: World)
      returns (ok: bool, ghost fate: Fate)
      requires Running(t) && PcOf(t) == (if removed then Finishing(final) else Failing) && Tears(a, Now(), t, quiet)
      requires if removed then Spared(a.w, at, w.threads[t].g) && Silences(a, Now(), start, t, w.threads[t].g, at)
               else a.faults < faults
      modifies this
      ensures Running(t) && Continues(a, Now(), t, quiet) && PcOf(t).Leaving? && faults >= old(faults)
      ensures TornDown(a, Now(), start, t, final, fate, at) && !fate.Unread? && (ok <==> fate.Completed?)
      ensures PcOf(t).done ==> ok && !w.threads[t].op.Issue?
      ensures removed && faults == old(faults) ==> ok && PcOf(t) == Leaving(!w.threads[t].op.Issue?)
    {
      ghost var b := Now();
      if removed {
        ok, fate := Conclude(t, final);
        TornDownOn(a, b, Now(), start, t, quiet, final, fate, at);
      } else {
        var stored := NoteFailure(t);
        ok, fate := false, if stored then Noted else Unnoted;
        FailureEnds(a, b, Now(), start, t, quiet, final, stored, at);
      }
    }

    /** Everything is removed; now the row is closed. */
    method Conclude(t: Tid, ghost final: Status) returns (ok: bool, ghost fate: Fate)
      requires Running(t) && PcOf(t) == Finishing(final)
      modifies this
      ensures Running(t) && Continues(old(Now()), Now(), t, quiet) && PcOf(t).Leaving?
      ensures StaysHushed(old(pg), pg, w.threads[t].g)
      ensures Ended(old(Now()), Now(), t, w.threads[t].g, final, fate) && fate == if ok then Completed else Unclosed
      ensures PcOf(t).done ==> ok && !w.threads[t].op.Issue?
      ensures faults == old(faults) ==> ok && PcOf(t) == Leaving(!w.threads[t].op.Issue?)
    {
      ok := CloseRow(t);
      fate := if ok then Completed else Unclosed;
    }

    // ---- entering and leaving ----------------------------------------------------------------

    method Edge(t: Tid, e: Event)
      requires Valid() && By(e, t) && AtEdge(e) && Next(w, e).Some?
      modifies this`w, this`trace
      ensures Valid() && Next(old(w), e) == Some(w) && SameResources(old(w), w) && trace == old(trace) + [e]
      ensures Roams(old(Now()), Now(), t, quiet)
    {
      ghost var a := Now();
      EdgeMoves(w, e, Next(w, e).value);
      Do(e);
      EdgeWanders(a, Now(), t, quiet);
    }

    predicate MayStart(op: Op, g: GrantId, db: Db)
      reads this
    {
      match op
      case Issue(ttl) => IsGrantId(g) && TTL_MIN <= ttl <= TTL_MAX
      case Revoke => g in w.store && w.store[g].db == db && !Terminal(w.store[g].status)
      case Reconcile => g in w.store && w.store[g].db == db
    }

    /** A new thread takes up a grant. */
    method Enlist(t: Tid, op: Op, g: GrantId, db: Db)
      requires Valid() && t !in w.threads && MayStart(op, g, db)
      modifies this`w, this`trace
      ensures Valid() && w == old(w).(threads := old(w).threads[t := Thread(op, g, db, Waiting)])
      ensures Starting(old(Now()), Now(), t, StartOf(t, op, g, db), quiet)
    {
      ghost var a := Now();
      match op {
        case Issue(ttl) => Do(StartIssue(t, g, db, ttl));
        case Revoke => Do(StartRevoke(t, g));
        case Reconcile => Do(StartReconcile(t, g));
      }
      EdgeWanders(a, Now(), t, quiet);
    }

    /** `_begin`: wait for the lock of the grant's database, or give up while somebody holds it; the
      * thread itself does nothing else after it took up the grant. */
    method Begin(t: Tid, op: Op, g: GrantId, db: Db) returns (got: bool)
      requires Valid() && t !in w.threads && MayStart(op, g, db)
      modifies this`w, this`trace, this`pg
      ensures Valid() && Starting(old(Now()), Now(), t, StartOf(t, op, g, db), quiet)
      ensures if got then t in w.threads && w.threads[t] == Thread(op, g, db, FirstPc(op)) else t !in w.threads
      ensures !got ==> Refused(start, trace, |old(trace)|, t, db)
      ensures quiet && got ==> w.locks == old(w.locks)[db := t] && w.inflight == old(w.inflight) + {g}
      ensures quiet && Idle(old(w)) ==> got
    {
      ghost var a := Now();
      if Idle(w) {
        Sound();
        IdleIsUnlocked(w);
      }
      Enlist(t, op, g, db);
      ghost var b := Now();
      got := Await(t, Thread(op, g, db, Waiting));
      StartingOn(a, b, Now(), t, StartOf(t, op, g, db), quiet);
      if !got {
        RefusedOn(start, trace, trace, |b.trace|, |a.trace|, t, db);
      } else {
        b := Now();
        GoIn(t, Thread(op, g, db, Entering));
        StartingOn(a, b, Now(), t, StartOf(t, op, g, db), quiet);
      }
    }

    method Await(t: Tid, th: Thread) returns (got: bool)
      requires Valid() && t in w.threads && w.threads[t] == th && th.pc.Waiting?
      modifies this`w, this`trace, this`pg
      ensures Valid() && Roams(old(Now()), Now(), t, quiet)
      ensures if got then t in w.threads && w.threads[t] == th.(pc := Entering) else t !in w.threads
      ensures !got ==> Refused(start, trace, |old(trace)|, t, th.db)
      ensures quiet ==> (th.db !in old(w.locks) ==> got) && w.inflight == old(w.inflight)
      ensures quiet && got ==> w.locks == old(w.locks)[th.db := t]
    {
      ghost var a := Now();
      Others(t);
      DriftRoams(a, Now(), t, quiet);
      ghost var b := Now();
      got := th.db !in w.locks;
      Edge(t, if got then Acquire(t) else GiveUp(t));
      RoamsOn(a, b, Now(), t, quiet);
      if !got {
        RefusedHere(start, b.trace, |a.trace|, trace, b.w, t, th.db);
      }
    }

    method GoIn(t: Tid, th: Thread)
      requires Valid() && t in w.threads && w.threads[t] == th && th.pc.Entering?
      modifies this`w, this`trace, this`pg
      ensures Valid() && Roams(old(Now()), Now(), t, quiet)
      ensures t in w.threads && w.threads[t] == th.(pc := FirstPc(th.op))
      ensures quiet ==> w.locks == old(w.locks) && w.inflight == old(w.inflight) + {th.g}
    {
      ghost var a := Now();
      Others(t);
      DriftRoams(a, Now(), t, quiet);
      ghost var b := Now();
      Edge(t, Enter(t));
      RoamsOn(a, b, Now(), t, quiet);
      b := Now();
      Others(t);
      DriftRoams(b, Now(), t, quiet);
      RoamsOn(a, b, Now(), t, quiet);
    }

    function StartOf(t: Tid, op: Op, g: GrantId, db: Db): Event {
      match op
      case Issue(ttl) => StartIssue(t, g, db, ttl)
      case Revoke => StartRevoke(t, g)
      case Reconcile => StartReconcile(t, g)
    }

    function FirstPc(op: Op): Pc {
      match op
      case Issue(_) => Inserting
      case Revoke => Marking
      case Reconcile => Rereading
    }

    /** `_end`. */
    method End(t: Tid)
      requires Valid() && t in w.threads && PcOf(t).Leaving?
      modifies this`w, this`trace, this`pg
      ensures Valid() && Roams(old(Now()), Now(), t, quiet) && t !in w.threads
      ensures quiet ==> w.locks == old(w.locks) - {old(w.threads[t]).db} && w.inflight == old(w.inflight) - {old(w.threads[t]).g}
    {
      ghost var a := Now();
      Edge(t, Discard(t));
      ghost var b := Now();
      Others(t);
      DriftRoams(b, Now(), t, quiet);
      RoamsOn(a, b, Now(), t, quiet);
      b := Now();
      Edge(t, Release(t));
      RoamsOn(a, b, Now(), t, quiet);
    }

    // ---- reconciler --------------------------------------------------------------------------

    /** The re-read under the lock: the decision rests on the row as it is now. */
    method RereadGrant(t: Tid) returns (ok: bool)
      requires Running(t) && PcOf(t).Rereading?
      modifies this
      ensures Running(t) && Tears(old(Now()), Now(), t, quiet) && (quiet ==> Aged(old(w), w))
      ensures ok && NeedsWork(RowOf(t), old(w.clock)) ==>
                PcOf(t).Fetching? && EndedRight(RowOf(t), old(w.clock), RowOf(t).(status := PcOf(t).final))
      ensures ok && !NeedsWork(RowOf(t), old(w.clock)) ==> PcOf(t) == Leaving(true)
      ensures !ok ==> PcOf(t) == Leaving(false)
      ensures old(trace) + [Reread(t, ok)] <= trace && (faults == old(faults) ==> ok)
    {
      ok := Succeeds();
      FinalIsRight(RowOf(t), w.clock);
      ghost var final := FinalFor(RowOf(t), w.clock);
      Look(t, Reread(t, ok), if !ok then Leaving(false) else if final.Some? then Fetching(final.value) else Leaving(true));
    }

    /** What `reconcile_one` does under the lock. If no call fails, a row that needs work gets the end that
      * is right for it, whatever the other threads do; a row that needs none loses nothing. If calls fail,
      * the row ends as `Ended` says: `revoking`, unless a read or write of the row itself failed. */
    method ReconcileLocked(t: Tid) returns (ok: bool, ghost final: Status, ghost fate: Fate)
      requires Running(t) && PcOf(t).Rereading?
      modifies this
      ensures Running(t) && Continues(old(Now()), Now(), t, quiet) && PcOf(t).Leaving?
      ensures !NeedsWork(old(RowOf(t)), old(w.clock)) ==> RowOf(t) == old(RowOf(t)) && (quiet ==> Aged(old(w), w))
      ensures NeedsWork(old(RowOf(t)), old(w.clock)) && faults == old(faults) ==>
                EndedRight(old(RowOf(t)), old(w.clock), RowOf(t)) && Gone(w, w.threads[t].g)
      ensures NeedsWork(old(RowOf(t)), old(w.clock)) ==>
                || (RowOf(t) == old(RowOf(t)) && faults > old(faults) && Records(trace, |old(trace)|, Reread(t, false)))
                || (EndedRight(old(RowOf(t)), old(w.clock), old(RowOf(t)).(status := final))
                    && Ended(old(Now()), Now(), t, w.threads[t].g, final, fate))
      ensures faults == old(faults) ==> ok && old(trace) + [Reread(t, true)] <= trace
    {
      ghost var a := Now();
      final, fate := Failed, Unread;
      ok := RereadGrant(t);
      RecordsHere(a.trace, trace, Reread(t, ok));
      if PcOf(t).Fetching? {
        ghost var b, at := Now(), w;
        final := PcOf(t).final;
        ok, at, fate := Teardown(t);
        TearsThenEnds(a, b, Now(), t, quiet, final, fate);
      }
    }

    /** `reconcile_one`. If no call fails and the lock is free in time, then whatever the other threads do
      * the row is read under the lock, and if it needs work it gets the end that is right for it. With
      * nobody else running other grants lose only what has run out, and the end stands. Unless its own
      * first read fails it takes up the grant, and no other. */
    method ReconcileOne(t: Tid, g: GrantId) returns (ok: bool)
      requires Valid() && t !in w.threads
      modifies this
      ensures Valid() && t !in w.threads && RowsStay(old(w), w) && faults >= old(faults)
      ensures quiet ==> OthersSpared(old(w), w, g)
      ensures quiet && Idle(old(w)) ==> Idle(w) && (faults == old(faults) ==> ok)
      ensures quiet && Idle(old(w)) && faults == old(faults) && g in old(w.store) ==>
                ServedSince(old(w), w, g) || (Spared(old(w), w, g) && !NeedsWorkIn(old(w), g))
      ensures faults == old(faults) && g in old(w.store) ==> SeenTo(start, trace, |old(trace)|, t, g)
      ensures old(trace) <= trace && Begun(trace, |old(trace)|, t) <= {g}
      ensures faults == old(faults) && g in old(w.store) ==> Begun(trace, |old(trace)|, t) == {g}
    {
      ghost var a := Now();
      AgedIfSame(w, w);
      var read := Succeeds();
      if !read {
        return false;
      }
      if g !in w.store {
        return true;
      }
      var got := Begin(t, Reconcile, g, w.store[g].db);
      if !got {
        GivenUp(a.trace, trace, t, g);
        return false;
      }
      ok := ReconcileInside(t, g, a);
    }

    /** The section of it, seen from its beginning. */
    method ReconcileInside(t: Tid, g: GrantId, ghost a: Moment) returns (ok: bool)
      requires Running(t) && PcOf(t).Rereading? && w.threads[t].g == g && w.threads[t].op.Reconcile?
      requires t !in a.w.threads && Starting(a, Now(), t, StartReconcile(t, g), quiet)
      modifies this
      ensures Valid() && t !in w.threads && RowsStay(a.w, w) && faults >= a.faults
      ensures quiet ==> OthersSpared(a.w, w, g) && w.threads == a.w.threads
      ensures faults == a.faults ==> ok && SeenTo(start, trace, |a.trace|, t, g)
      ensures quiet && faults == a.faults ==> ServedSince(a.w, w, g) || (Spared(a.w, w, g) && !NeedsWorkIn(a.w, g))
      ensures a.trace <= trace && Begun(trace, |a.trace|, t) == {g}
    {
      ghost var b := Now();
      ghost var final, fate;
      ok, final, fate := ReconcileLocked(t);
      ghost var c := Now();
      End(t);
      OneBegun(a.trace, b.trace, c.trace, trace, t, g);
      if faults == a.faults {
        AttendedHere(start, b, c, trace, |a.trace|, t, g);
      }
      if quiet {
        Enclosed(a.w, b.w, c.w, w, g);
        ReconcileEnds(a.w, b.w, c.w, w, g, faults == a.faults);
        NobodyElse(a.w, b.w, c.w, w, t);
      }
    }

    /** `reconcile_once`, up to the purge of sessions: every row the snapshot shows to need work is
      * attempted, unless its section was open at that moment; a failure on one never stops the rest.
      * `clean` are the grants whose own visit met no fault; the others are no more than there were faults.
      * The run has the start of a reconciliation for each of `clean`, and for no grant outside
      * `attempted`. With nobody else running, though time goes on, every grant in `clean` is torn down as
      * called for, whatever failed elsewhere, and a grant that was not attempted lost only what had run
      * out; if no visit met a fault, the store and the resources have converged. */
    method ReconcileOnce(t: Tid) returns (listed: bool, ghost sweep: Sweep)
      requires Valid() && t !in w.threads
      modifies this
      ensures Valid() && t !in w.threads && faults >= old(faults)
      ensures if listed then Swept(start, old(Now()), Now(), t, sweep, quiet) else faults > old(faults) && w == old(w)
    {
      sweep := Sweep({}, {}, {});
      listed := Succeeds();
      if !listed {
        return;
      }
      sweep := SweepRows(t, w.clock, w.store);
    }

    /** Its loop over the rows read at `now`. */
    method SweepRows(t: Tid, now: real, rows: map<GrantId, Row>) returns (ghost sweep: Sweep)
      requires Valid() && t !in w.threads && rows == w.store && now == w.clock
      modifies this
      ensures Valid() && t !in w.threads && Swept(start, old(Now()), Now(), t, sweep, quiet)
    {
      ghost var a := Now();
      var todo := set g | g in rows && !Terminal(rows[g].status);
      ghost var done: set<GrantId>, all := {}, todo;
      sweep := NothingSwept(start, a, t, quiet);
      while todo != {}
        invariant Valid() && t !in w.threads && Parts(all, done, todo)
        invariant SweptSoFar(start, a, Now(), t, done, sweep, quiet)
      {
        var g :| g in todo;
        PartsOn(all, done, todo, g);
        FinalIsRight(rows[g], now);
        sweep := VisitNext(t, g, FinalFor(rows[g], now).Some?, a, done, sweep);
        todo := todo - {g};
        done := done + {g};
      }
      Sound();
      SweptAll(start, a, Now(), t, done, sweep, quiet);
    }

    /** The body of its loop with the accounts kept of it. */
    method VisitNext(t: Tid, g: GrantId, due: bool, ghost a: Moment, ghost done: set<GrantId>, ghost sweep: Sweep)
      returns (ghost next: Sweep)
      requires Valid() && t !in w.threads && g in a.w.store && g !in done && due == NeedsWorkIn(a.w, g)
      requires SweptSoFar(start, a, Now(), t, done, sweep, quiet)
      modifies this
      ensures Valid() && t !in w.threads && SweptSoFar(start, a, Now(), t, done + {g}, next, quiet)
    {
      ghost var b := Now();
      var tried := VisitRow(t, g, due);
      next := SweptOn(start, a, b, Now(), t, done, sweep, g, due, tried, quiet);
    }

    /** The body of its loop, `due` says whether the snapshot of the row calls for work. */
    method VisitRow(t: Tid, g: GrantId, due: bool) returns (tried: bool)
      requires Valid() && t !in w.threads
      modifies this
      ensures Valid() && t !in w.threads && RowsStay(old(w), w) && faults >= old(faults)
      ensures tried <==> due && g !in old(w.inflight)
      ensures quiet && Idle(old(w)) ==> Visited(old(w), w, g, due, tried, faults == old(faults))
      ensures old(trace) <= trace && Begun(trace, |old(trace)|, t) <= if tried then {g} else {}
      ensures tried && faults == old(faults) && g in old(w.store) ==>
                Begun(trace, |old(trace)|, t) == {g} && SeenTo(start, trace, |old(trace)|, t, g)
    {
      ghost var a := Now();
      Sound();
      if Idle(w) {
        IdleIsUnlocked(w);
      }
      AgedIfSame(w, w);
      tried := g !in w.inflight && due;
      if tried {
        var ok := ReconcileOne(t, g);
      }
      ghost var b := Now();
      Others(t);
      NoneBegun(b.trace, trace, t);
      BegunOn(b.trace, trace, |a.trace|, t);
      if tried && b.faults == a.faults && g in a.w.store {
        SeenToOn(start, b.trace, trace, |a.trace|, t, g);
      }
      if quiet && Idle(a.w) {
        VisitEnds(a.w, b.w, w, g, due, tried, b.faults == a.faults);
      }
    }

    // ---- revoke ------------------------------------------------------------------------------

    method MarkRevoking(t: Tid) returns (ok: bool)
      requires Running(t) && PcOf(t).Marking?
      modifies this
      ensures Running(t) && Continues(old(Now()), Now(), t, quiet)
      ensures PcOf(t) == if ok then Fetching(Revoked) else Leaving(false)
      ensures RowOf(t) == old(RowOf(t)).(status := Revoking)
              || (!ok && RowOf(t) == old(RowOf(t)) && Records(trace, |old(trace)|, Mark(t, false, true)))
      ensures ok ==> RowOf(t).status.Revoking?
      ensures ResourcesSpared(old(w), w, w.threads[t].g)
      ensures faults == old(faults) ==> ok
    {
      var stored := Succeeds();
      var audited := true;
      if stored {
        audited := Succeeds();
      }
      ghost var m := Step(t, Mark(t, stored, audited));
      RecordsHere(old(trace), trace, Mark(t, stored, audited));
      ResourcesSparedIfSame(old(w), m, w, w.threads[t].g);
      ok := stored && audited;
    }

    /** `revoke`. A normal return, at once for a closed row or after its own teardown, means that
      * nothing of the grant is left, and nothing comes back, whatever the other threads do; after a
      * teardown the PostgreSQL accounts that its first search saw, in the world `at` of that moment of
      * the run, refuse logins and have no session. Past the lock it raises only if a call fails. */
    method RevokeGrant(t: Tid, g: GrantId) returns (r: Result<Status, OpError>, ghost at: World)
      requires Valid() && t !in w.threads
      modifies this
      ensures Valid() && t !in w.threads && faults >= old(faults)
      ensures r == Err(NoSuchGrant) ==> g !in old(w.store)
      ensures g !in old(w.store) ==> r == Err(if faults == old(faults) then NoSuchGrant else OpError.CallFailed)
      ensures r.Ok? ==> Settled(w, g) && r.value == w.store[g].status
      ensures r == Err(LockBusy) ==> g in old(w.store) && Refused(start, trace, |old(trace)|, t, old(w.store[g]).db)
      ensures r.Err? ==> r.error.NoSuchGrant? || r.error.LockBusy? || r.error.CallFailed?
      ensures r.Ok? && !Terminal(old(w.store[g]).status) ==> Silences(old(Now()), Now(), start, t, g, at)
      ensures quiet && r.Ok? && !Terminal(old(w.store[g]).status) ==> ResourcesSpared(old(w), at, g)
      ensures r == Err(OpError.CallFailed) ==> faults > old(faults)
      ensures quiet ==> OthersSpared(old(w), w, g)
      ensures quiet && Idle(old(w)) && faults == old(faults) && g in old(w.store) ==>
                r == Ok(if Terminal(old(w.store[g]).status) then old(w.store[g]).status else Revoked)
    {
      ghost var a := Now();
      at := w;
      Sound();
      AgedIfSame(w, w);
      var read := Succeeds();
      if !read {
        return Err(OpError.CallFailed), at;
      }
      if g !in w.store {
        return Err(NoSuchGrant), at;
      }
      if Terminal(w.store[g].status) {
        assert GrantInv(w, g);
        return Ok(w.store[g].status), at;
      }
      r, at := RevokeOpen(t, g);
    }

    /** Its course for a row that is not closed. */
    method RevokeOpen(t: Tid, g: GrantId) returns (r: Result<Status, OpError>, ghost at: World)
      requires Valid() && t !in w.threads && g in w.store && !Terminal(w.store[g].status)
      modifies this
      ensures Valid() && t !in w.threads && faults >= old(faults)
      ensures r.Err? ==> r.error.LockBusy? || r.error.CallFailed?
      ensures r == Err(LockBusy) ==> Refused(start, trace, |old(trace)|, t, old(w.store[g]).db)
      ensures r.Ok? ==> Settled(w, g) && r.value == w.store[g].status && Silences(old(Now()), Now(), start, t, g, at)
      ensures quiet && r.Ok? ==> ResourcesSpared(old(w), at, g)
      ensures r == Err(OpError.CallFailed) ==> faults > old(faults)
      ensures quiet ==> OthersSpared(old(w), w, g)
      ensures quiet && Idle(old(w)) && faults == old(faults) ==> r == Ok(Revoked)
    {
      var got, ok;
      got, ok, at := RevokeInside(t, g);
      var read := Reads(ok);
      r := if ok && read then Ok(w.store[g].status) else Err(if got then OpError.CallFailed else LockBusy);
    }

    /** The section of a revoke, from its beginning. */
    method RevokeInside(t: Tid, g: GrantId) returns (got: bool, ok: bool, ghost at: World)
      requires Valid() && t !in w.threads && g in w.store && !Terminal(w.store[g].status)
      modifies this
      ensures Valid() && t !in w.threads && g in w.store && faults >= old(faults) && (ok ==> got)
      ensures !got ==> Refused(start, trace, |old(trace)|, t, old(w.store[g]).db)
      ensures ok ==> Settled(w, g) && Silences(old(Now()), Now(), start, t, g, at)
      ensures quiet && ok ==> ResourcesSpared(old(w), at, g) && w.store[g].status.Revoked?
      ensures quiet ==> OthersSpared(old(w), w, g) && (Idle(old(w)) ==> got)
      ensures got && faults == old(faults) ==> ok
    {
      ghost var a := Now();
      ok, at := false, w;
      got := Begin(t, Revoke, g, w.store[g].db);
      if !got {
        if quiet {
          AgedSparesOthers(a.w, w, g);
        }
        return;
      }
      ghost var b := Now();
      ok, at := RevokeAndLeave(t, g);
      RevokeEnds(a, b, Now(), start, t, g, at, ok, quiet);
    }

    method RevokeAndLeave(t: Tid, g: GrantId) returns (ok: bool, ghost at: World)
      requires Running(t) && PcOf(t).Marking? && w.threads[t].op.Revoke? && w.threads[t].g == g
      modifies this
      ensures Valid() && t !in w.threads && g in w.store && Leaves(old(Now()), Now())
      ensures ok ==> Settled(w, g) && ResourcesSpared(old(w), at, g) && Silences(old(Now()), Now(), start, t, g, at)
      ensures quiet ==> OthersSpared(old(w), w, g) && (ok ==> w.store[g].status.Revoked?)
      ensures faults == old(faults) ==> ok
    {
      ghost var b := Now();
      ok, at := RevokeLocked(t);
      ghost var c := Now();
      End(t);
      RevokeLeaves(b, c, Now(), start, t, g, at, ok, quiet);
    }

    /** The last read of the row, made after a success only. */
    method Reads(needed: bool) returns (ok: bool)
      modifies this`faults
      ensures !needed ==> ok
      ensures faults == old(faults) + if ok then 0 else 1
    {
      ok := true;
      if needed {
        ok := Succeeds();
      }
    }

    /** What `revoke` does under the lock. If it fails the row says `revoking`, unless the very first write
      * failed, or the grant was revoked and only the last audit write failed. */
    method RevokeLocked(t: Tid) returns (ok: bool, ghost at: World)
      requires Running(t) && PcOf(t).Marking? && w.threads[t].op.Revoke?
      modifies this
      ensures Running(t) && Continues(old(Now()), Now(), t, quiet) && PcOf(t).Leaving?
      ensures ok ==> Settled(w, w.threads[t].g) && RowOf(t) == old(RowOf(t)).(status := Revoked)
      ensures ok ==> ResourcesSpared(old(w), at, w.threads[t].g) && Silences(old(Now()), Now(), start, t, w.threads[t].g, at)
      ensures !ok ==>
                || RowOf(t) == old(RowOf(t)).(status := Revoking)
                || (RowOf(t) == old(RowOf(t)).(status := Revoked) && Gone(w, w.threads[t].g))
                || (RowOf(t) == old(RowOf(t)) && Records(trace, |old(trace)|, Mark(t, false, true)))
      ensures faults == old(faults) ==> ok
    {
      ghost var a := Now();
      at := w;
      ok := MarkRevoking(t);
      if ok {
        ghost var b := Now();
        ghost var fate;
        ok, at, fate := Teardown(t);
        ContinuesOn(a, b, Now(), t, quiet);
        if ok {
          ResourcesSparedOn(a.w, b.w, at, w.threads[t].g);
          SilencesFrom(a, b, Now(), start, t, w.threads[t].g, at);
        }
        ok := PcOf(t).done;
      }
    }

    // ---- issue -------------------------------------------------------------------------------

    method InsertGrant(t: Tid) returns (ok: bool)
      requires Valid() && t in w.threads && w.threads[t].op.Issue? && PcOf(t).Inserting?
      modifies this
      ensures Valid() && Continues(old(Now()), Now(), t, quiet)
      ensures PcOf(t) == if ok then WritingRole else Leaving(false)
      ensures ok ==> old(w.threads[t]).g !in old(w.store) && Running(t)
      ensures ok ==> RowOf(t) == Row(w.threads[t].db, w.threads[t].op.ttl, Issuing, None, None, None, None)
      ensures !ok && faults == old(faults) ==> Taken(start, trace, |old(trace)|, t, old(w.threads[t]).g)
      ensures !ok ==> old(w.threads[t]).g in old(w.store) || faults > old(faults)
      ensures !ok && quiet ==> Aged(old(w), w)
    {
      Attained();
      var stored := Succeeds();
      ok := stored && w.threads[t].g !in w.store;
      InsertResult(w, t, stored);
      ghost var m := Act(t, InsertRow(t, stored));
      if !ok {
        if stored {
          TakenHere(start, old(trace), trace, old(w), t, w.threads[t].g);
        }
        NothingInserted(old(w), m, w, t, quiet);
      }
    }

    /** The error handler of `issue` either starts a teardown or, its audit write failing, leaves; the run
      * since its length was `n` shows the latter. */
    ghost predicate AfterError(t: Tid, n: nat)
      requires t in w.threads
      reads this
    {
      PcOf(t) == Fetching(Failed) || (PcOf(t) == Leaving(false) && HandlerRaised(trace, n, t))
    }

    /** The audit write of that handler, made only when there is an error. */
    method Audited(needed: bool) returns (audited: bool)
      modifies this`faults
      ensures !needed ==> audited
      ensures faults == old(faults) + if audited then 0 else 1
    {
      audited := true;
      if needed {
        audited := Succeeds();
      }
    }

    method PutRole(t: Tid) returns (ok: bool)
      requires Running(t) && PcOf(t).WritingRole?
      modifies this
      ensures Running(t) && Continues(old(Now()), Now(), t, quiet)
      ensures SameRow(old(w), w, w.threads[t].g)
      ensures if ok then PcOf(t) == CreatingToken else AfterError(t, |old(trace)|)
      ensures PcOf(t).Leaving? ==> faults >= old(faults) + 2
      ensures faults == old(faults) ==> ok
    {
      var o := Calls();
      var audited := Audited(!o.Done?);
      ghost var m := Step(t, WriteRole(t, o, audited));
      ok := o.Done?;
      if !ok && !audited {
        RaisedHere(old(trace), WriteRole(t, o, audited), trace, t);
      }
    }

    /** The new token lasts for the lifetime asked for and the grace, unless that time has passed. */
    method NewToken(t: Tid) returns (ok: bool)
      requires Running(t) && PcOf(t).CreatingToken?
      modifies this
      ensures Running(t) && Continues(old(Now()), Now(), t, quiet)
      ensures SameRow(old(w), w, w.threads[t].g)
      ensures if ok then PcOf(t).StoringAccessor? else AfterError(t, |old(trace)|)
      ensures PcOf(t).Leaving? ==> faults >= old(faults) + 2
      ensures ok && w.threads[t].op.Issue? ==>
                Lasts(w, PcOf(t).acc, w.threads[t].g, old(w.clock) + (w.threads[t].op.ttl + TOKEN_GRACE) as real)
      ensures faults == old(faults) ==> ok
    {
      Sound();
      assert ThreadInv(w, w.threads[t]);
      FreshExists(w.tokenLog.Keys);
      var acc: Accessor :| acc !in w.tokenLog.Keys;
      var o := Calls();
      var audited := Audited(!o.Done?);
      ghost var m := Step(t, CreateToken(t, o, audited, acc));
      ok := o.Done?;
      if ok {
        LastsOn(m, w, acc, w.threads[t].g, old(w.clock) + (w.threads[t].op.ttl + TOKEN_GRACE) as real);
      } else if !audited {
        RaisedHere(old(trace), CreateToken(t, o, audited, acc), trace, t);
      }
    }

    method NoteAccessor(t: Tid) returns (ok: bool)
      requires Running(t) && PcOf(t).StoringAccessor?
      modifies this
      ensures Running(t) && Continues(old(Now()), Now(), t, quiet)
      ensures RowOf(t) == if ok then old(RowOf(t)).(accessor := Some(old(PcOf(t)).acc)) else old(RowOf(t))
      ensures if ok then PcOf(t) == ReadingCreds(old(PcOf(t)).acc) else AfterError(t, |old(trace)|)
      ensures PcOf(t).Leaving? ==> faults >= old(faults) + 2
      ensures ResourcesSpared(old(w), w, w.threads[t].g)
      ensures faults == old(faults) ==> ok
    {
      ok := Succeeds();
      var audited := Audited(!ok);
      ghost var m := Step(t, StoreAccessor(t, ok, audited));
      if !ok && !audited {
        RaisedHere(old(trace), StoreAccessor(t, ok, audited), trace, t);
      }
      ResourcesSparedIfSame(old(w), m, w, w.threads[t].g);
    }

    /** What Vault chooses for a new lease. */
    method DrawLease(ttl: int) returns (cred: LeaseId, random: string, duration: nat)
      requires ttl > 0
      ensures cred !in w.leaseLog && IsSuffix(random) && 0 < duration <= ttl
    {
      FreshExists(w.leaseLog.Keys);
      cred :| cred !in w.leaseLog.Keys;
      assert IsSuffix("abc012");
      random :| IsSuffix(random);
      duration :| 0 < duration <= ttl;
    }

    /** Vault refuses the read if the token has run out; it picks the random part of the name and a
      * lease no longer than asked. */
    method ReadCredentials(t: Tid) returns (ok: bool)
      requires Running(t) && PcOf(t).ReadingCreds?
      modifies this
      ensures Running(t) && Continues(old(Now()), Now(), t, quiet)
      ensures SameRow(old(w), w, w.threads[t].g)
      ensures if ok then PcOf(t).Activating? else AfterError(t, |old(trace)|)
      ensures PcOf(t).Leaving? ==> faults >= old(faults) + if old(PcOf(t).acc in w.tokens) then 2 else 1
      ensures faults == old(faults) ==>
                if old(PcOf(t).acc in w.tokens) then ok else PcOf(t) == Fetching(Failed)
    {
      Attained();
      NothingToCollideWith(w, t);
      var cred, random, duration := DrawLease(w.threads[t].op.ttl);
      var o := Rejected;
      if PcOf(t).acc in w.tokens {
        o := Calls();
      }
      var audited := Audited(!o.Done?);
      CanReadCreds(w, t, o, audited, cred, random, duration);
      var e := ReadCreds(t, o, audited, cred, random, duration);
      ghost var m := Step(t, e);
      ok := o.Done?;
      if !ok && !audited {
        RaisedHere(old(trace), e, trace, t);
      }
    }

    /** The stored expiry counts from this moment, for the length of the lease. */
    method ActivateGrant(t: Tid) returns (stored: bool, ok: bool)
      requires Running(t) && PcOf(t).Activating?
      modifies this
      ensures Running(t) && Continues(old(Now()), Now(), t, quiet)
      ensures if stored then PcOf(t) == Leaving(ok) && RowOf(t).status.Active? && ActiveRow(w, w.threads[t].g)
              else !ok && AfterError(t, |old(trace)|) && SameRow(old(w), w, w.threads[t].g)
      ensures !stored && PcOf(t).Leaving? ==> faults >= old(faults) + 2
      ensures faults == old(faults) ==> stored && ok
    {
      Sound();
      assert ThreadInv(w, w.threads[t]);
      stored := Succeeds();
      ok := Succeeds();
      ghost var m := Step(t, Event.Activate(t, stored, ok));
      if !stored && !ok {
        RaisedHere(old(trace), Event.Activate(t, stored, ok), trace, t);
      }
      Sound();
      assert GrantInv(w, w.threads[t].g);
      ok := ok && stored;
    }

    /** The guarded part of `issue`. If no call fails, it succeeds unless the token ran out before the
      * credentials were read. */
    method TryIssue(t: Tid) returns (ok: bool)
      requires Running(t) && PcOf(t).WritingRole? && w.threads[t].op.Issue? && RowOf(t).status.Issuing?
      modifies this
      ensures Running(t) && Continues(old(Now()), Now(), t, quiet)
      ensures if ok then PcOf(t) == Leaving(true) && RowOf(t).status.Active? && ActiveRow(w, w.threads[t].g)
              else AfterTry(t, |old(trace)|)
      ensures PcOf(t) == Leaving(false) ==> faults > old(faults)
      ensures faults == old(faults) && !ok ==>
                PcOf(t) == Fetching(Failed) && w.clock >= old(w.clock) + (w.threads[t].op.ttl + TOKEN_GRACE) as real
    {
      ghost var a := Now();
      ok := PutRole(t);
      if !ok { return; }
      ghost var b := Now();
      ok := TryToken(t);
      ContinuesOn(a, b, Now(), t, quiet);
      if !ok {
        StillAfter(t, |b.trace|, |a.trace|);
        return;
      }
      b := Now();
      ok := TryCredentials(t);
      ContinuesOn(a, b, Now(), t, quiet);
      if !ok {
        StillAfter(t, |b.trace|, |a.trace|);
      }
    }

    /** An error that leaves an `issuing` row, or an active row of which only the audit entry is missing. */
    ghost predicate AfterTry(t: Tid, n: nat)
      requires t in w.threads && w.threads[t].g in w.store
      reads this
    {
      || (AfterError(t, n) && RowOf(t).status.Issuing?)
      || (PcOf(t) == Leaving(false) && RowOf(t).status.Active? && ActiveRow(w, w.threads[t].g))
    }

    lemma StillAfter(t: Tid, n: nat, m: nat)
      requires t in w.threads && w.threads[t].g in w.store && m <= n && AfterTry(t, n)
      ensures AfterTry(t, m)
    {
      if HandlerRaised(trace, n, t) {
        RaisedOn(trace, trace, n, m, t);
      }
    }

    method TryToken(t: Tid) returns (ok: bool)
      requires Running(t) && PcOf(t).CreatingToken? && w.threads[t].op.Issue? && RowOf(t).status.Issuing?
      modifies this
      ensures Running(t) && Continues(old(Now()), Now(), t, quiet) && RowOf(t).status.Issuing?
      ensures if ok then PcOf(t).ReadingCreds? else AfterTry(t, |old(trace)|)
      ensures PcOf(t).Leaving? ==> faults > old(faults)
      ensures ok ==> Lasts(w, PcOf(t).acc, w.threads[t].g, old(w.clock) + (w.threads[t].op.ttl + TOKEN_GRACE) as real)
      ensures faults == old(faults) ==> ok
    {
      ghost var a := Now();
      ok := NewToken(t);
      if !ok { return; }
      ghost var b, acc := Now(), PcOf(t).acc;
      ok := NoteAccessor(t);
      ContinuesOn(a, b, Now(), t, quiet);
      LastsOn(b.w, w, acc, w.threads[t].g, a.w.clock + (w.threads[t].op.ttl + TOKEN_GRACE) as real);
      if !ok {
        StillAfter(t, |b.trace|, |a.trace|);
      }
    }

    method TryCredentials(t: Tid) returns (ok: bool)
      requires Running(t) && PcOf(t).ReadingCreds? && RowOf(t).status.Issuing?
      modifies this
      ensures Running(t) && Continues(old(Now()), Now(), t, quiet)
      ensures if ok then PcOf(t) == Leaving(true) && RowOf(t).status.Active? && ActiveRow(w, w.threads[t].g)
              else AfterTry(t, |old(trace)|)
      ensures PcOf(t) == Leaving(false) ==> faults > old(faults)
      ensures faults == old(faults) && !ok ==> PcOf(t) == Fetching(Failed) && old(PcOf(t).acc !in w.tokens)
    {
      ghost var a := Now();
      ok := ReadCredentials(t);
      if !ok { return; }
      ghost var b := Now();
      var stored;
      stored, ok := ActivateGrant(t);
      ContinuesOn(a, b, Now(), t, quiet);
      if !ok {
        StillAfter(t, |b.trace|, |a.trace|);
      }
    }

    /** What `issue` does under the lock: insert the row, try, and tear down what an error left. Whatever the
      * other threads do, the row is for the database and lifetime asked for and ends as `Issued` says. */
    method IssueLocked(t: Tid) returns (ok: bool, ghost inserted: bool, ghost from: Moment, ghost tear: Option<Fate>)
      requires Valid() && t in w.threads && w.threads[t].op.Issue? && PcOf(t).Inserting?
      modifies this
      ensures Valid() && Continues(old(Now()), Now(), t, quiet) && PcOf(t).Leaving?
      ensures ok ==> inserted
      ensures inserted ==> old(w.threads[t]).g !in old(w.store) && Issued(old(Now()), Now(), t, ok, from, tear)
      ensures !inserted ==> (quiet ==> Aged(old(w), w)) && (old(w.threads[t]).g in old(w.store) || faults > old(faults))
      ensures !inserted && faults == old(faults) ==> Taken(start, trace, |old(trace)|, t, old(w.threads[t]).g)
      ensures faults == old(faults) && inserted && !ok ==>
                && w.clock >= old(w.clock) + (w.threads[t].op.ttl + TOKEN_GRACE) as real
                && RowOf(t).status.Failed? && Gone(w, w.threads[t].g)
    {
      ghost var a := Now();
      from, tear := a, None;
      ok := InsertGrant(t);
      inserted := ok;
      if ok {
        ghost var b := Now();
        ok := TryIssue(t);
        ContinuesOn(a, b, Now(), t, quiet);
        if PcOf(t).Fetching? {
          from := Now();
          var cleaned;
          ghost var at, fate;
          cleaned, at, fate := Teardown(t);
          tear := Some(fate);
          ContinuesOn(a, from, Now(), t, quiet);
        } else if !ok {
          StillAfter(t, |b.trace|, |a.trace|);
        }
      }
    }

    /** `issue`, past the compilation of the statements. Whatever the other threads do, a normal return means
      * that the run had the grant active and complete, for the database and the lifetime asked for. With
      * nobody else running it still is, unless something has run out since; other grants lose only what
      * has run out whatever the outcome. If no call fails it can raise only because the token's whole lifetime
      * passed before it was used, and then nothing is left. It can also raise after the row became active,
      * when the last audit write or read fails. */
    method IssueGrant(t: Tid, g: GrantId, db: Db, ttl: int) returns (r: Result<GrantId, OpError>)
      requires Valid() && t !in w.threads && IsGrantId(g)
      modifies this
      ensures Valid() && t !in w.threads && faults >= old(faults)
      ensures r == Err(BadTtl) <==> !(TTL_MIN <= ttl <= TTL_MAX)
      ensures r == Err(LockBusy) ==> Refused(start, trace, |old(trace)|, t, db)
      ensures r.Err? ==> r.error.BadTtl? || r.error.LockBusy? || r.error.CallFailed?
      ensures r == Err(OpError.CallFailed) ==>
                || faults > old(faults) || Taken(start, trace, |old(trace)|, t, g)
                || w.clock >= old(w.clock) + (ttl + TOKEN_GRACE) as real
      ensures r.Ok? ==> r.value == g && g !in old(w.store) && RowAsked(w, g, db, ttl)
                        && WasActive(start, trace, |old(trace)|, g, db, ttl)
      ensures quiet ==> OthersSpared(old(w), w, g)
      ensures quiet && g !in old(w.store) && g in w.store ==> RowAsked(w, g, db, ttl)
      ensures quiet && r.Ok? ==> w.store[g].status.Active? && ActiveRow(w, g) && AsAsked(w, g, db, ttl)
      ensures quiet && Idle(old(w)) && faults == old(faults) && g !in old(w.store) && TTL_MIN <= ttl <= TTL_MAX && r.Err? ==>
                && w.clock >= old(w.clock) + (ttl + TOKEN_GRACE) as real
                && g in w.store && w.store[g].status.Failed? && Gone(w, g)
    {
      ghost var a := Now();
      AgedIfSame(w, w);
      if !(TTL_MIN <= ttl <= TTL_MAX) {
        return Err(BadTtl);
      }
      var got := Begin(t, Issue(ttl), g, db);
      if !got {
        if quiet {
          AgedSparesOthers(a.w, w, g);
          assert Spared(a.w, w, g);
        }
        return Err(LockBusy);
      }
      var ok := IssueInside(t, g, db, ttl, a);
      var read := Reads(ok);
      r := if ok && read then Ok(g) else Err(OpError.CallFailed);
    }

    /** The section of it, seen from its beginning. */
    method IssueInside(t: Tid, g: GrantId, db: Db, ttl: int, ghost a: Moment) returns (ok: bool)
      requires Valid() && t in w.threads && w.threads[t] == Thread(Issue(ttl), g, db, Inserting)
      requires TTL_MIN <= ttl <= TTL_MAX
      requires t !in a.w.threads && Starting(a, Now(), t, StartIssue(t, g, db, ttl), quiet)
      modifies this
      ensures Valid() && t !in w.threads && faults >= a.faults
      ensures !ok ==>
                || faults > a.faults || Taken(start, trace, |a.trace|, t, g)
                || w.clock >= a.w.clock + (ttl + TOKEN_GRACE) as real
      ensures ok ==> g !in a.w.store && RowAsked(w, g, db, ttl) && WasActive(start, trace, |a.trace|, g, db, ttl)
      ensures quiet ==> OthersSpared(a.w, w, g) && (g !in a.w.store && g in w.store ==> RowAsked(w, g, db, ttl))
      ensures quiet && ok ==> w.store[g].status.Active? && ActiveRow(w, g) && AsAsked(w, g, db, ttl)
      ensures quiet && faults == a.faults && g !in a.w.store && !ok ==>
                && w.clock >= a.w.clock + (ttl + TOKEN_GRACE) as real
                && g in w.store && w.store[g].status.Failed? && Gone(w, g)
    {
      ghost var b := Now();
      ghost var inserted, from, tear;
      ok, inserted, from, tear := IssueLocked(t);
      ghost var c := Now();
      Sound();
      End(t);
      Sound();
      IssueSeen(a, b, c, Now(), t, g, db, ttl, quiet, ok, inserted, from, tear);
      if ok {
        WasActiveHere(start, c, trace, |a.trace|, g, db, ttl);
      } else if !inserted && faults == a.faults {
        TakenOn(start, c.trace, trace, |b.trace|, |a.trace|, t, g);
      }
    }
  }
}
