/** `vault_client.py`: the one-shot helper run and the service client that logs in again. */
module VaultClient {
  import opened Wrappers
  import opened Protocol

  /** The outcomes of the calls of one helper run, in the order they are made. */
  datatype Plan = Plan(role: Outcome, token: Outcome, creds: Outcome,
                       revokeLease: Outcome, revokeToken: Outcome, deleteRole: Outcome)

  /** How far the run gets: a call is made only when the calls before it reported success. */
  predicate TokenMade(p: Plan) {
    p.role.Done? && Applied(p.token)
  }

  predicate LeaseMade(p: Plan) {
    p.role.Done? && p.token.Done? && Applied(p.creds)
  }

  predicate Returns(p: Plan) {
    p.role.Done? && p.token.Done? && p.creds.Done?
  }

  predicate TokenRevoked(p: Plan) {
    p.role.Done? && p.token.Done? && Applied(p.revokeToken)
  }

  predicate LeaseRevoked(p: Plan) {
    Returns(p) && Applied(p.revokeLease)
  }

  /** The part of Vault a helper run touches. */
  class Vault {
    var roles: set<string>
    var tokens: map<Accessor, string>
    var leases: map<LeaseId, Accessor>
    var runs: nat // how often creation statements were run, in whole or in part

    constructor ()
      ensures roles == {} && tokens == map[] && leases == map[] && runs == 0
    {
      roles, tokens, leases, runs := {}, map[], map[], 0;
    }

    /** The guarded steps: write the role, create the token, read the credentials once. */
    method Attempt(tag: string, p: Plan, acc: Accessor, cred: LeaseId)
        returns (accessor: Option<Accessor>, lease: Option<LeaseId>)
      modifies this
      ensures accessor == if p.role.Done? && p.token.Done? then Some(acc) else None
      ensures lease == if Returns(p) then Some(cred) else None
      ensures runs == old(runs) + if p.role.Done? && p.token.Done? && !p.creds.Rejected? then 1 else 0
      ensures roles == if Applied(p.role) then old(roles) + {tag} else old(roles)
      ensures tokens == if TokenMade(p) then old(tokens)[acc := tag] else old(tokens)
      ensures leases == if LeaseMade(p) then old(leases)[cred := acc] else old(leases)
    {
      accessor, lease := None, None;
      if Applied(p.role) {
        roles := roles + {tag};
      }
      if !p.role.Done? {
        return;
      }
      if Applied(p.token) {
        tokens := tokens[acc := tag];
      }
      if !p.token.Done? {
        return;
      }
      accessor := Some(acc);
      if !p.creds.Rejected? {
        runs := runs + 1;
      }
      if Applied(p.creds) {
        leases := leases[cred := acc];
      }
      if p.creds.Done? {
        lease := Some(cred);
      }
    }

    /** The clean-up: every call is attempted and its error swallowed. A token takes its leases with it. */
    method CleanUp(tag: string, p: Plan, accessor: Option<Accessor>, lease: Option<LeaseId>)
      modifies this
      ensures runs == old(runs)
      ensures roles == if Applied(p.deleteRole) then old(roles) - {tag} else old(roles)
      ensures tokens == if accessor.Some? && Applied(p.revokeToken) then old(tokens) - {accessor.value} else old(tokens)
      ensures leases == map l | l in old(leases)
                            && !(lease.Some? && Applied(p.revokeLease) && l == lease.value)
                            && !(accessor.Some? && Applied(p.revokeToken) && old(leases)[l] == accessor.value) :: old(leases)[l]
    {
      if lease.Some? && Applied(p.revokeLease) {
        leases := leases - {lease.value};
      }
      if accessor.Some? && Applied(p.revokeToken) {
        tokens := tokens - {accessor.value};
        leases := map l | l in leases && leases[l] != accessor.value :: leases[l];
      }
      if Applied(p.deleteRole) {
        roles := roles - {tag};
      }
    }

    /** `run_as_manager`: a normal return means that the statements ran exactly once; the whole state
      * of Vault afterwards, for every way the six calls can go. The new accessor and lease id are
      * Vault's choice. */
    method RunAsManager(tag: string, p: Plan, acc: Accessor, cred: LeaseId) returns (ok: bool)
      requires acc !in tokens && cred !in leases && acc !in leases.Values
      modifies this
      ensures ok <==> Returns(p)
      ensures ok ==> runs == old(runs) + 1
      ensures !ok ==> old(runs) <= runs <= old(runs) + 1
      ensures roles == if Applied(p.deleteRole) then old(roles) - {tag}
                       else if Applied(p.role) then old(roles) + {tag} else old(roles)
      ensures tokens == if TokenMade(p) && !TokenRevoked(p) then old(tokens)[acc := tag] else old(tokens)
      ensures leases == if LeaseMade(p) && !LeaseRevoked(p) && !TokenRevoked(p) then old(leases)[cred := acc] else old(leases)
    {
      var accessor, lease := Attempt(tag, p, acc, cred);
      ghost var made := leases;
      CleanUp(tag, p, accessor, lease);
      ok := lease.Some?;
      assert old(tokens)[acc := tag] - {acc} == old(tokens);
      assert forall l :: l in old(leases) ==> old(leases)[l] != acc by {
        forall l | l in old(leases) ensures old(leases)[l] != acc {
          assert old(leases)[l] in old(leases).Values;
        }
      }
    }
  }

  predicate CleansUp(p: Plan) {
    Applied(p.revokeLease) && Applied(p.revokeToken) && Applied(p.deleteRole)
  }

  /** With a label no role carries and clean-up calls that take effect, a helper run leaves Vault as
    * it was whichever step failed, except in one case: the response of the token creation was lost. */
  method NeutralRun(v: Vault, tag: string, p: Plan, acc: Accessor, cred: LeaseId) returns (ok: bool)
    requires acc !in v.tokens && cred !in v.leases && acc !in v.leases.Values && tag !in v.roles
    requires CleansUp(p)
    modifies v
    ensures v.roles == old(v.roles) && v.leases == old(v.leases)
    ensures v.tokens == old(v.tokens) <==> !(p.role.Done? && p.token.Lost?)
    ensures ok ==> v.tokens == old(v.tokens) && v.runs == old(v.runs) + 1
  {
    ok := v.RunAsManager(tag, p, acc, cred);
    assert p.role.Done? && p.token.Lost? ==> acc in v.tokens;
  }

  // ---- the service client --------------------------------------------------------------------

  type ServiceToken = nat

  const RELOGIN_AFTER := 2700.0 // 45 minutes
  const TOKEN_TTL := 3600.0

  /** What a Vault call answers. A 403 has no effect; after the other errors the effect is unknown. */
  datatype Answer = Fine | Forbidden | Down(applied: bool) | Other(applied: bool)

  predicate TookEffect(a: Answer) {
    match a
    case Fine => true
    case Forbidden => false
    case Down(applied) => applied
    case Other(applied) => applied
  }

  /** A login may also succeed in Vault although its answer is lost. */
  datatype LoginAnswer = Granted | Denied | AnswerLost

  datatype CallError = Unavailable | PermissionDenied | CallFailed

  /** One process's login as the AppRole identity. */
  class Service {
    var client: Option<ServiceToken>
    var loggedInAt: real
    var clock: real
    var alive: set<ServiceToken> // tokens of this process that Vault has not been told to revoke
    var stray: set<ServiceToken> // those of them whose login's answer was lost
    var next: ServiceToken
    var effects: nat             // how often the calls made through `Call` took effect
    var stale: bool              // some call went out with a token older than its lifetime

    ghost predicate Valid()
      reads this
    {
      && loggedInAt <= clock && !stale
      && (client.Some? ==> client.value in alive && client.value !in stray)
      && stray <= alive && (forall s :: s in alive ==> s < next)
    }

    constructor ()
      ensures Valid() && effects == 0 && alive == {} && stray == {}
    {
      client, loggedInAt, clock, alive, stray, next, effects, stale := None, 0.0, 0.0, {}, {}, 0, 0, false;
    }

    /** `_login`: the previous token is revoked, best effort. A login whose answer is lost leaves a token
      * that nobody here knows. */
    method Login(answer: LoginAnswer, revokes: bool) returns (ok: bool)
      requires Valid()
      modifies this
      ensures Valid() && ok == answer.Granted? && clock == old(clock) && effects == old(effects)
      ensures next >= old(next)
      ensures !ok ==> client == old(client) && loggedInAt == old(loggedInAt)
      ensures answer.Denied? ==> alive == old(alive) && stray == old(stray)
      ensures answer.AnswerLost? ==>
                exists s :: s >= old(next) && alive == old(alive) + {s} && stray == old(stray) + {s}
      ensures ok ==> client.Some? && client.value >= old(next) && loggedInAt == clock && stray == old(stray)
      ensures ok ==> alive == (if revokes && old(client).Some? then old(alive) - {old(client).value} else old(alive))
                              + {client.value}
    {
      match answer
      case Denied =>
        return false;
      case AnswerLost =>
        alive, stray, next := alive + {next}, stray + {next}, next + 1;
        return false;
      case Granted =>
        var before := client;
        client, loggedInAt := Some(next), clock;
        alive, next := alive + {next}, next + 1;
        if before.Some? && revokes {
          alive := alive - {before.value};
        }
        return true;
    }

    /** One request with the current token. */
    method Send(a: Answer)
      requires Valid() && client.Some? && clock - loggedInAt <= RELOGIN_AFTER
      modifies this`effects, this`stale
      ensures Valid() && effects == old(effects) + (if TookEffect(a) then 1 else 0)
    {
      stale := stale || clock - loggedInAt > TOKEN_TTL;
      if TookEffect(a) {
        effects := effects + 1;
      }
    }

    /** `call`: log in when there is no client or the login is old, and once more on a 403. The
      * request takes effect at most once, and exactly once on a normal return; it never goes out
      * with an expired token; and of this process's tokens only the newest stays alive, provided
      * the old ones could be revoked, besides those of logins whose answer was lost: at most one such
      * token for a call. */
    method Call(first: Answer, second: Answer, login: LoginAnswer, relogin: LoginAnswer, revokes: bool, elapsed: real)
      returns (r: Result<(), CallError>)
      requires Valid() && elapsed >= 0.0
      modifies this
      ensures Valid() && clock == old(clock) + elapsed
      ensures r.Ok? ==> effects == old(effects) + 1 && client.Some?
      ensures old(effects) <= effects <= old(effects) + 1
      ensures var ready := login.Granted? || (old(client).Some? && clock - old(loggedInAt) <= RELOGIN_AFTER);
              && (!ready ==> r == Err(Unavailable))
              && (ready && first.Fine? ==> r.Ok?)
              && (ready && first.Down? ==> r == Err(Unavailable))
              && (ready && first.Other? ==> r == Err(CallFailed))
              && (ready && first.Forbidden? && !relogin.Granted? ==> r == Err(Unavailable))
              && (ready && first.Forbidden? && relogin.Granted? ==>
                    && (r.Ok? <==> second.Fine?)
                    && (r == Err(PermissionDenied) <==> second.Forbidden?)
                    && (r == Err(CallFailed) <==> second.Down? || second.Other?))
              && effects == old(effects) + if ready && (TookEffect(first) || (first.Forbidden? && relogin.Granted?
                                                                             && TookEffect(second))) then 1 else 0
      ensures revokes && old(Tidy()) ==> Tidy()
      ensures stray == old(stray)
              || (r == Err(Unavailable) && (login.AnswerLost? || relogin.AnswerLost?)
                  && exists s :: s >= old(next) && s !in old(alive) && stray == old(stray) + {s})
      ensures !first.Forbidden? && old(client).Some? && clock - old(loggedInAt) <= RELOGIN_AFTER ==>
                alive == old(alive) && client == old(client)
    {
      clock := clock + elapsed;
      if client.None? || clock - loggedInAt > RELOGIN_AFTER {
        var ok := Login(login, revokes);
        if !ok {
          return Err(Unavailable);
        }
      }
      Send(first);
      match first
      case Fine => return Ok(());
      case Down(_) => return Err(Unavailable);
      case Other(_) => return Err(CallFailed);
      case Forbidden =>
        var ok := Login(relogin, revokes);
        if !ok {
          return Err(Unavailable);
        }
        Send(second);
        if second.Fine? {
          return Ok(());
        }
        return Err(if second.Forbidden? then PermissionDenied else CallFailed);
    }

    /** Nothing is alive but the current token and those nobody here knows. */
    predicate Tidy()
      reads this
    {
      alive <= stray + if client.Some? then {client.value} else {}
    }
  }
}
