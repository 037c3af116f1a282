/** What the maintenance statements achieve: the texts are split, parsed and run on a server. */
module Effects {
  import opened Names
  import opened Wrappers
  import opened Protocol
  import opened SqlText
  import opened Statements
  import opened Maintenance
  import L = Lockout

  /** One of the two servers; `Broken` when it rejected a statement or a function raised. */
  datatype Server = PgServer(pg: L.Pg) | ChServer(users: set<string>, queries: set<string>) | Broken

  /** Each server knows its own statements only. */
  function Apply(s: Server, a: Action, env: L.Env): Server {
    match s
    case PgServer(pg) => (
      match a
      case Lockout(account) => PgServer(L.LockedOut(pg, account))
      case Terminate(account) => PgServer(L.Terminated(pg, account, env))
      case Cleanup(account) =>
        var (pg', ok) := L.CleanupRole(pg, account, env);
        if ok then PgServer(pg') else Broken
      case _ => Broken)
    case ChServer(users, queries) => (
      match a
      case Kill(account) => ChServer(users, queries - {account})
      case DropUser(account) => ChServer(users - {account}, queries)
      case _ => Broken)
    case Broken => Broken
  }

  /** Vault splits every text on semicolons and the server parses the pieces. */
  function Execute(s: Server, texts: seq<string>, env: L.Env): Server
    decreases |texts|
  {
    if texts == [] then s else Execute(RunPieces(s, Commands(texts[0]), env), texts[1..], env)
  }

  function RunPieces(s: Server, pieces: seq<string>, env: L.Env): Server
    decreases |pieces|
  {
    if pieces == [] then s
    else
      var a := Parse(pieces[0] + ";");
      RunPieces(if a.Some? then Apply(s, a.value, env) else Broken, pieces[1..], env)
  }

  lemma RunsOneText(s: Server, a: Action, env: L.Env)
    requires ValidAccount(a.account)
    ensures RunPieces(s, Commands(Text(a)), env) == Apply(s, a, env)
  {
    ActionEndsOnce(a);
    RoundTrip(a);
    SplitsToItself(Text(a));
    var piece := Text(a)[..|Text(a)| - 1];
    assert piece + ";" == Text(a);
    assert [piece][1..] == [];
  }

  lemma RunsOne(s: Server, a: Action, env: L.Env)
    requires ValidAccount(a.account)
    ensures Execute(s, Texts([a]), env) == Apply(s, a, env)
  {
    RunsOneText(s, a, env);
    assert Texts([a]) == [Text(a)] && [Text(a)][1..] == [];
  }

  lemma RunsTwo(s: Server, a: Action, b: Action, env: L.Env)
    requires ValidAccount(a.account) && ValidAccount(b.account)
    ensures Execute(s, Texts([a, b]), env) == Apply(Apply(s, a, env), b, env)
  {
    RunsOneText(s, a, env);
    RunsOne(Apply(s, a, env), b, env);
    assert Texts([a, b]) == [Text(a)] + Texts([b]);
    assert ([Text(a)] + Texts([b]))[1..] == Texts([b]);
  }

  // ---- what the three builders achieve -----------------------------------------------------------

  /** Nothing changed for any other account. */
  ghost predicate OthersKept(s: L.Pg, s': L.Pg, account: string) {
    forall b :: b != account ==>
      (b in s'.admits <==> b in s.admits) && L.Admits(s', b) == L.Admits(s, b) && L.Sessions(s', b) == L.Sessions(s, b)
  }

  /** On PostgreSQL the account refuses logins from now on, and nothing else changes; ClickHouse is sent
    * nothing. */
  lemma LockoutRefusesLogins(pg: L.Pg, account: string, env: L.Env)
    requires ValidAccount(account)
    ensures LockoutStatements(ClickHouse, account) == Ok([])
    ensures var after := Execute(PgServer(pg), LockoutStatements(Postgres, account).value, env);
            && after.PgServer? && !L.Admits(after.pg, account) && OthersKept(pg, after.pg, account)
            && after.pg.sessions == pg.sessions && (account in after.pg.admits <==> account in pg.admits)
  {
    RunsOne(PgServer(pg), Action.Lockout(account), env);
  }

  /** The account's sessions end if the call achieves anything, and its queries in any case; no account
    * comes, goes or is locked out. */
  lemma TerminateEndsSessions(pg: L.Pg, users: set<string>, queries: set<string>, account: string, env: L.Env)
    requires ValidAccount(account)
    ensures var after := Execute(PgServer(pg), TerminateStatements(Postgres, account).value, env);
            && after.PgServer? && OthersKept(pg, after.pg, account) && after.pg.admits == pg.admits
            && (env.kills(pg.step) ==> L.Sessions(after.pg, account) == 0)
    ensures Execute(ChServer(users, queries), TerminateStatements(ClickHouse, account).value, env)
         == ChServer(users, queries - {account})
  {
    RunsOne(PgServer(pg), Action.Terminate(account), env);
    RunsOne(ChServer(users, queries), Kill(account), env);
  }

  /** If the statements run, the account is absent, on both servers, and no other account is touched. On
    * ClickHouse they always run and its queries are over too. */
  lemma DropRemovesAccount(pg: L.Pg, users: set<string>, queries: set<string>, account: string, env: L.Env)
    requires ValidAccount(account)
    ensures var after := Execute(PgServer(pg), DropStatements(Postgres, account).value, env);
            after.Broken? || (after.PgServer? && account !in after.pg.admits && OthersKept(pg, after.pg, account))
    ensures Execute(ChServer(users, queries), DropStatements(ClickHouse, account).value, env)
         == ChServer(users - {account}, queries - {account})
  {
    RunsOne(PgServer(pg), Cleanup(account), env);
    L.CleanupContract(pg, account, env);
    RunsTwo(ChServer(users, queries), Kill(account), DropUser(account), env);
  }

  /** The portal's order on PostgreSQL: after the lockout the drop runs if every call works, and leaves
    * neither the account nor a session of it, whatever its clients want. */
  lemma LockoutThenDropWorks(pg: L.Pg, account: string, env: L.Env)
    requires ValidAccount(account) && account in pg.admits && L.AllWorks(env)
    ensures var locked := Execute(PgServer(pg), LockoutStatements(Postgres, account).value, env);
            var after := Execute(locked, DropStatements(Postgres, account).value, env);
            after.PgServer? && account !in after.pg.admits && L.Sessions(after.pg, account) == 0
  {
    RunsOne(PgServer(pg), Action.Lockout(account), env);
    var locked := L.LockedOut(pg, account);
    RunsOne(PgServer(locked), Cleanup(account), env);
    L.LockedCleanupSucceeds(locked, account, env, 0);
    L.LockedCleanupEndsSessions(locked, account, env, 0);
  }
}
