/** Session termination on PostgreSQL: the portal's lockout loop and the PL/pgSQL functions that
  * `postgres-init/02-roles.sh` installs. Clients of the account act between any two statements. */
module Lockout {
  import opened Names
  import opened Wrappers
  import opened Protocol

  /** `admits[a]`: role `a` exists, and new logins are committed as allowed or not. `sessions[a]`: live
    * backends of that user name; they may outlive the role. `step` counts the clients' turns. */
  datatype Pg = Pg(admits: map<string, bool>, sessions: map<string, nat>, step: nat, clock: real)

  function Sessions(s: Pg, a: string): nat {
    if a in s.sessions then s.sessions[a] else 0
  }

  predicate Admits(s: Pg, a: string) {
    a in s.admits && s.admits[a]
  }

  /** What the clients want, what a terminate call achieves, which helper runs and reads fail and
    * how long things take, turn by turn. */
  datatype Env = Env(want: nat -> nat, kills: nat -> bool, works: nat -> bool, delay: nat -> real)

  /** A turn of the clients of `a`: sessions may end; new ones start only while logins are admitted. */
  function Clients(s: Pg, a: string, env: Env): Pg {
    var wanted := env.want(s.step);
    var count := if Admits(s, a) || wanted <= Sessions(s, a) then wanted else Sessions(s, a);
    var delay := if env.delay(s.step) >= 0.0 then env.delay(s.step) else 0.0;
    s.(sessions := s.sessions[a := count], step := s.step + 1, clock := s.clock + delay)
  }

  function ManyClients(s: Pg, a: string, env: Env, turns: nat): Pg
    decreases turns
  {
    if turns == 0 then s else ManyClients(Clients(s, a, env), a, env, turns - 1)
  }

  /** Once logins are refused and no session is left, none ever appears. */
  lemma {:induction false} EmptyForGood(s: Pg, a: string, env: Env, turns: nat)
    requires !Admits(s, a) && Sessions(s, a) == 0
    ensures !Admits(ManyClients(s, a, env, turns), a) && Sessions(ManyClients(s, a, env, turns), a) == 0
    decreases turns
  {
    if turns > 0 {
      EmptyForGood(Clients(s, a, env), a, env, turns - 1);
    }
  }

  /** `pg_terminate_backend` on every backend of `a`. */
  function Terminated(s: Pg, a: string, env: Env): Pg {
    if env.kills(s.step) then s.(sessions := s.sessions[a := 0]) else s
  }

  /** `vdba.lockout_role`, committed. */
  function LockedOut(s: Pg, a: string): Pg {
    if a in s.admits then s.(admits := s.admits[a := false]) else s
  }

  // ---- the PL/pgSQL function -----------------------------------------------------------------

  const MAX_TRIES := 50

  /** The end of the loop of `cleanup_role`, entered after `tries` failed passes: the state, the
    * number of passes made in all, and whether a pass found no backend. The lockout in front of it is part
    * of the same transaction, so until the commit clients still see the role as it was. */
  function TerminateLoop(s: Pg, a: string, env: Env, tries: nat): (r: (Pg, nat, bool))
    requires tries <= MAX_TRIES
    ensures tries < r.1 <= MAX_TRIES + 1
    ensures r.2 <==> Sessions(r.0, a) == 0
    ensures !r.2 ==> r.1 == MAX_TRIES + 1
    ensures r.0.step == s.step + (r.1 - tries)
    ensures r.0.admits == s.admits
    ensures forall b :: b != a ==> Sessions(r.0, b) == Sessions(s, b)
    decreases MAX_TRIES - tries, |a| // |a| never changes; it keeps the verifier from unrolling all 51 passes
  {
    var s' := Pass(s, a, env);
    if Sessions(s', a) == 0 then (s', tries + 1, true)
    else if tries + 1 > MAX_TRIES then (s', tries + 1, false)
    else TerminateLoop(s', a, env, tries + 1)
  }

  function Pass(s: Pg, a: string, env: Env): Pg {
    Clients(Terminated(s, a, env), a, env)
  }

  /** `vdba.cleanup_role`: refuse foreign names, do nothing for a missing role, else terminate, drop
    * (which may fail on a lock) and commit. Clients get a last turn between the final count and the commit. */
  function CleanupRole(s: Pg, a: string, env: Env): (r: (Pg, bool)) {
    if !ValidAccount(a) then (s, false)
    else if a !in s.admits then (s, true)
    else
      var loop := TerminateLoop(s, a, env, 0);
      if !loop.2 then (loop.0, false)
      else
        var last := Clients(loop.0, a, env);
        if !env.works(last.step) then (last, false) else (last.(admits := last.admits - {a}), true)
  }

  /** With logins refused, the first pass whose terminate call achieves anything is the last. */
  lemma {:induction false} KillEndsLoop(s: Pg, a: string, env: Env, tries: nat, k: nat)
    requires !Admits(s, a) && tries <= MAX_TRIES && tries + k <= MAX_TRIES && env.kills(s.step + k)
    ensures var r := TerminateLoop(s, a, env, tries); r.2 && r.1 <= tries + k + 1
    decreases k
  {
    var s' := Pass(s, a, env);
    if k > 0 && Sessions(s', a) != 0 {
      KillEndsLoop(s', a, env, tries + 1, k - 1);
    }
  }

  /** After a committed lockout the clean-up drops the role if any of its 51 passes gets a terminate call
    * through and the drop itself works; if all do, one pass is enough. */
  lemma LockedCleanupSucceeds(s: Pg, a: string, env: Env, k: nat)
    requires ValidAccount(a) && a in s.admits && !Admits(s, a)
    requires k <= MAX_TRIES && env.kills(s.step + k) && forall i :: env.works(i)
    ensures CleanupRole(s, a, env).1 && a !in CleanupRole(s, a, env).0.admits
    ensures TerminateLoop(s, a, env, 0).1 <= k + 1
  {
    KillEndsLoop(s, a, env, 0, k);
  }

  /** It refuses exactly the names the portal refuses; a normal return means the role is gone; other
    * roles and sessions are not touched. */
  lemma CleanupContract(s: Pg, a: string, env: Env)
    ensures var (s', ok) := CleanupRole(s, a, env);
            && (!ValidAccount(a) ==> !ok && s' == s)
            && (ok ==> a !in s'.admits)
            && (!ok ==> s'.admits == s.admits)
            && forall b :: b != a ==> (b in s'.admits <==> b in s.admits)
                                      && Admits(s', b) == Admits(s, b) && Sessions(s', b) == Sessions(s, b)
  {
  }

  /** Running it again after success changes nothing. */
  lemma CleanupIdempotent(s: Pg, a: string, env: Env, env': Env)
    requires CleanupRole(s, a, env).1
    ensures CleanupRole(CleanupRole(s, a, env).0, a, env') == (CleanupRole(s, a, env).0, true)
  {
    CleanupContract(s, a, env);
  }

  lemma {:induction false} LoopKeepsRefusal(s: Pg, a: string, env: Env, tries: nat)
    requires tries <= MAX_TRIES && !Admits(s, a)
    ensures var r := TerminateLoop(s, a, env, tries); !Admits(r.0, a)
  {
  }

  /** After a committed lockout, a successful clean-up leaves no session behind, ever. */
  lemma LockedCleanupEndsSessions(s: Pg, a: string, env: Env, turns: nat)
    requires a in s.admits && !Admits(s, a) && CleanupRole(s, a, env).1
    ensures Sessions(ManyClients(CleanupRole(s, a, env).0, a, env, turns), a) == 0
  {
    var loop := TerminateLoop(s, a, env, 0);
    LoopKeepsRefusal(s, a, env, 0);
    assert Sessions(Clients(loop.0, a, env), a) == 0;
    EmptyForGood(CleanupRole(s, a, env).0, a, env, turns);
  }

  /** Without one it gives no such guarantee: a client that logs in after the last count keeps its
    * session, although the clean-up succeeds and the role is gone. Hence, for an existing account,
    * the guarantee holds for all clients if and only if the lockout was committed before. */
  lemma CleanupAloneIsNotEnough(s: Pg, a: string)
    requires ValidAccount(a) && a in s.admits
    ensures (forall env: Env :: CleanupRole(s, a, env).1 ==> Sessions(CleanupRole(s, a, env).0, a) == 0) <==> !Admits(s, a)
  {
    if !Admits(s, a) {
      forall env: Env | CleanupRole(s, a, env).1 ensures Sessions(CleanupRole(s, a, env).0, a) == 0 {
        LockedCleanupEndsSessions(s, a, env, 0);
      }
    } else {
      var late := Env(i => if i == s.step + 1 then 1 else 0, i => true, i => true, i => 0.0);
      var first := Clients(Terminated(s, a, late), a, late);
      assert Sessions(first, a) == 0;
      assert TerminateLoop(s, a, late, 0) == (first, 1, true);
      assert CleanupRole(s, a, late).1 && Sessions(CleanupRole(s, a, late).0, a) == 1;
    }
  }

  // ---- the portal's loop ---------------------------------------------------------------------

  datatype LockoutError = BadName | CallFailed | StillAlive

  const DEADLINE := 20.0
  const PAUSE := 0.3
  const MAX_ROUNDS := 67

  class Cluster {
    var s: Pg
    const env: Env

    constructor (s: Pg, env: Env)
      ensures this.s == s && this.env == env
    {
      this.s, this.env := s, env;
    }

    /** One helper run, or one read of `pg_stat_activity`: may fail, and clients act around it. */
    method Turn(a: string) returns (ok: bool)
      modifies this
      ensures s == Clients(old(s), a, env) && ok == env.works(old(s.step))
    {
      ok := env.works(s.step);
      s := Clients(s, a, env);
    }

    /** The loop of `cleanup_role`: terminate, count, give up after 50 failed passes. */
    method TerminatePasses(a: string) returns (passes: nat, empty: bool)
      modifies this
      ensures (s, passes, empty) == TerminateLoop(old(s), a, env, 0)
      ensures passes <= MAX_TRIES + 1
    {
      ghost var goal := TerminateLoop(s, a, env, 0);
      var tries := 0;
      passes, empty := 0, false;
      while !empty && tries <= MAX_TRIES
        invariant passes <= MAX_TRIES + 1
        invariant if empty || tries > MAX_TRIES then (s, passes, empty) == goal
                  else passes == tries && TerminateLoop(s, a, env, tries) == goal
        decreases MAX_TRIES + 1 - tries, !empty
      {
        s := Pass(s, a, env);
        passes := passes + 1;
        if Sessions(s, a) == 0 {
          empty := true;
        } else {
          tries := tries + 1;
        }
      }
    }

    /** `vdba.cleanup_role` as written; a missing role costs no pass. */
    method Cleanup(a: string) returns (ok: bool, passes: nat)
      modifies this
      ensures (s, ok) == CleanupRole(old(s), a, env)
      ensures passes == if ValidAccount(a) && a in old(s).admits then TerminateLoop(old(s), a, env, 0).1 else 0
      ensures passes <= MAX_TRIES + 1
      ensures a !in old(s).admits ==> s == old(s)
      ensures AllWorks(env) && ValidAccount(a) && a in old(s).admits && !Admits(old(s), a) ==>
                ok && passes == 1 && a !in s.admits && Sessions(s, a) == 0
    {
      if AllWorks(env) && ValidAccount(a) && a in s.admits && !Admits(s, a) {
        LockedCleanupSucceeds(s, a, env, 0);
        LockedCleanupEndsSessions(s, a, env, 0);
      }
      if !ValidAccount(a) {
        return false, 0;
      }
      if a !in s.admits {
        return true, 0;
      }
      var empty;
      passes, empty := TerminatePasses(a);
      if !empty {
        return false, passes;
      }
      s := Clients(s, a, env);
      if !env.works(s.step) {
        return false, passes;
      }
      s := s.(admits := s.admits - {a});
      return true, passes;
    }

    /** A helper run that terminates, a pause, and the next look at `pg_stat_activity`. */
    method Round(a: string) returns (ok: bool)
      requires !Admits(s, a)
      modifies this
      ensures OnlySessions(old(s), s, a) && (ok ==> s.clock >= old(s).clock + PAUSE)
      ensures old(s).step < s.step && (ok <==> !SomeFailed(env, old(s).step, s.step))
      ensures AllWorks(env) ==> ok && Sessions(s, a) == 0
    {
      s := Terminated(s, a, env);
      ok := Turn(a);
      if ok {
        s := s.(clock := s.clock + PAUSE);
        ok := Turn(a);
      }
    }

    /** The loop: as long as `pg_stat_activity` shows a backend and the deadline has not passed,
      * terminate and pause. Each round takes at least the pause, which bounds their number. */
    method TerminateUntilGone(a: string) returns (r: Result<nat, LockoutError>, rounds: nat)
      requires !Admits(s, a)
      modifies this
      ensures r.Ok? ==> Sessions(s, a) == 0 && r.value == rounds
      ensures rounds <= MAX_ROUNDS
      ensures OnlySessions(old(s), s, a)
      ensures r == Err(StillAlive) ==> s.clock > old(s).clock + DEADLINE && Sessions(s, a) > 0
      ensures old(s).step < s.step && (r == Err(CallFailed) <==> SomeFailed(env, old(s).step, s.step))
      ensures r != Err(BadName)
      ensures AllWorks(env) ==> r.Ok? && rounds <= 1
    {
      var begun := s.clock;
      var deadline := begun + DEADLINE;
      rounds := 0;
      var ok := Turn(a);
      while ok && Sessions(s, a) > 0
        invariant rounds <= MAX_ROUNDS && (ok ==> s.clock >= begun + PAUSE * rounds as real)
        invariant OnlySessions(old(s), s, a)
        invariant old(s).step < s.step && (ok <==> !SomeFailed(env, old(s).step, s.step))
        invariant AllWorks(env) ==> ok && if rounds == 0 then s.clock == begun else rounds == 1 && Sessions(s, a) == 0
        decreases MAX_ROUNDS - rounds, ok
      {
        if s.clock > deadline {
          return Err(StillAlive), rounds;
        }
        ghost var before := s.step;
        rounds := rounds + 1;
        ok := Round(a);
        FailedBefore(env, old(s).step, before, s.step);
      }
      r := if ok then Ok(rounds) else Err(CallFailed);
    }

    /** `_lock_out_and_terminate`. A normal return means that the account's logins are refused and it
      * has no session; there are at most 67 rounds; only this account is touched; and if terminate
      * calls achieve anything one round is enough. It gives up only if one of its calls fails, or past the
      * deadline with a session still there. */
    method LockOutAndTerminate(db: Db, a: string) returns (r: Result<nat, LockoutError>)
      modifies this
      ensures db.ClickHouse? ==> r == Ok(0) && s == old(s)
      ensures db.Postgres? ==> (r == Err(BadName) <==> !ValidAccount(a))
      ensures r == Err(BadName) ==> s == old(s)
      ensures db.Postgres? && r.Ok? ==> !Admits(s, a) && Sessions(s, a) == 0 && r.value <= MAX_ROUNDS
      ensures s.admits.Keys == old(s).admits.Keys
      ensures forall b :: b != a ==> Admits(s, b) == Admits(old(s), b) && Sessions(s, b) == Sessions(old(s), b)
      ensures !Admits(old(s), a) && Sessions(old(s), a) == 0 ==> !Admits(s, a) && Sessions(s, a) == 0
      ensures r == Err(StillAlive) ==> s.clock > old(s).clock + DEADLINE && Sessions(s, a) > 0
      ensures r == Err(CallFailed) <==> SomeFailed(env, old(s).step, s.step)
      ensures db.Postgres? && ValidAccount(a) && AllWorks(env) ==> r.Ok? && r.value <= 1
    {
      if db != Postgres {
        return Ok(0);
      }
      if !ValidAccount(a) {
        return Err(BadName);
      }
      var ok := Turn(a);
      if ok || env.kills(s.step) { // the response of a call that took effect may be lost
        s := LockedOut(s, a);
      }
      if !ok {
        return Err(CallFailed);
      }
      var rounds;
      r, rounds := TerminateUntilGone(a);
    }
  }

  /** One of the calls made in these turns failed. */
  ghost predicate SomeFailed(env: Env, from: nat, to: nat) {
    exists i :: from <= i < to && !env.works(i)
  }

  lemma FailedBefore(env: Env, from: nat, mid: nat, to: nat)
    requires from <= mid <= to
    ensures SomeFailed(env, from, to) <==> SomeFailed(env, from, mid) || SomeFailed(env, mid, to)
  {
  }

  /** Every call succeeds and takes no noticeable time, and terminated backends end at once. */
  ghost predicate AllWorks(env: Env) {
    forall i :: env.works(i) && env.kills(i) && env.delay(i) <= 0.0
  }

  /** Only the sessions of `a` and the clock differ, and the sessions can only have ended. */
  ghost predicate OnlySessions(s: Pg, s': Pg, a: string) {
    && s'.admits == s.admits && s'.clock >= s.clock
    && Sessions(s', a) <= Sessions(s, a)
    && forall b :: b != a ==> Sessions(s', b) == Sessions(s, b)
  }
}
