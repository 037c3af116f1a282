/** The fixed statements run as the database manager against one account. */
module Maintenance {
  import opened Names
  import opened Wrappers
  import opened Protocol
  import opened SqlText
  import opened Statements

  /** What a maintenance statement does, to which account. */
  datatype Action = Lockout(account: string) | Terminate(account: string) | Cleanup(account: string)
                  | Kill(account: string) | DropUser(account: string)

  const LOCKOUT := "SELECT vdba.lockout_role('"
  const CLEANUP := "SELECT vdba.cleanup_role('"
  const TERMINATE := SELECT_PIDS + FROM_ACTIVITY
  const SELECT_PIDS := "SELECT pg_terminate_backend(pid) "
  const FROM_ACTIVITY := "FROM pg_stat_activity WHERE usename = '"
  const KILL := "KILL QUERY WHERE user = '"
  const DROP := "DROP USER IF EXISTS '"
  const CLOSE := "');"
  const SYNC := "' SYNC;"
  const QUOTE := "';"

  function Text(a: Action): string {
    match a
    case Lockout(account) => LOCKOUT + account + CLOSE
    case Terminate(account) => TERMINATE + account + QUOTE
    case Cleanup(account) => CLEANUP + account + CLOSE
    case Kill(account) => KILL + account + SYNC
    case DropUser(account) => DROP + account + QUOTE
  }

  /** The five texts, letter by letter. */
  lemma TextsAreLiteral(account: string)
    ensures Text(Lockout(account)) == "SELECT vdba.lockout_role('" + account + "');"
    ensures Text(Terminate(account))
         == "SELECT pg_terminate_backend(pid) " + "FROM pg_stat_activity WHERE usename = '" + account + "';"
    ensures Text(Cleanup(account)) == "SELECT vdba.cleanup_role('" + account + "');"
    ensures Text(Kill(account)) == "KILL QUERY WHERE user = '" + account + "' SYNC;"
    ensures Text(DropUser(account)) == "DROP USER IF EXISTS '" + account + "';"
  {
  }

  function Between(text: string, before: string, after: string): Option<string> {
    var n := |text| - |after|;
    if StartsWith(text, before) && |before| <= n && text[n..] == after && ValidAccount(text[|before|..n])
    then Some(text[|before|..n]) else None
  }

  function Parse(text: string): Option<Action> {
    if StartsWith(text, LOCKOUT) then
      var a := Between(text, LOCKOUT, CLOSE);
      if a.Some? then Some(Lockout(a.value)) else None
    else if StartsWith(text, CLEANUP) then
      var a := Between(text, CLEANUP, CLOSE);
      if a.Some? then Some(Cleanup(a.value)) else None
    else if StartsWith(text, TERMINATE) then
      var a := Between(text, TERMINATE, QUOTE);
      if a.Some? then Some(Terminate(a.value)) else None
    else if StartsWith(text, KILL) then
      var a := Between(text, KILL, SYNC);
      if a.Some? then Some(Kill(a.value)) else None
    else
      var a := Between(text, DROP, QUOTE);
      if a.Some? then Some(DropUser(a.value)) else None
  }

  lemma BetweenFinds(before: string, account: string, after: string)
    requires ValidAccount(account)
    ensures Between(before + account + after, before, after) == Some(account)
  {
    var text := before + account + after;
    assert text[..|before|] == before;
    assert text[|text| - |after|..] == after;
    assert text[|before|..|text| - |after|] == account;
  }

  lemma BetweenInverse(text: string, before: string, after: string)
    requires Between(text, before, after).Some?
    ensures var account := Between(text, before, after).value;
            ValidAccount(account) && text == before + account + after
  {
  }

  lemma Starts()
    ensures |LOCKOUT| > 12 && LOCKOUT[0] == 'S' && LOCKOUT[7] == 'v' && LOCKOUT[12] == 'l'
    ensures |CLEANUP| > 12 && CLEANUP[0] == 'S' && CLEANUP[7] == 'v' && CLEANUP[12] == 'c'
    ensures |TERMINATE| > 12 && TERMINATE[0] == 'S' && TERMINATE[7] == 'p'
    ensures |KILL| > 12 && KILL[0] == 'K'
    ensures |DROP| > 12 && DROP[0] == 'D'
  {
    assert SELECT_PIDS[0] == 'S' && SELECT_PIDS[7] == 'p';
  }

  /** The text determines the action and the account. */
  lemma RoundTrip(a: Action)
    requires ValidAccount(a.account)
    ensures Parse(Text(a)) == Some(a)
  {
    Starts();
    var text := Text(a);
    match a
    case Lockout(account) => BetweenFinds(LOCKOUT, account, CLOSE);
    case Cleanup(account) =>
      assert text[12] == 'c';
      BetweenFinds(CLEANUP, account, CLOSE);
    case Terminate(account) =>
      assert text[7] == 'p';
      BetweenFinds(TERMINATE, account, QUOTE);
    case Kill(account) =>
      assert text[0] == 'K';
      BetweenFinds(KILL, account, SYNC);
    case DropUser(account) =>
      assert text[0] == 'D';
      BetweenFinds(DROP, account, QUOTE);
  }

  /** The parser accepts nothing but the text of an action on a valid account. */
  lemma ParseIsExact(text: string)
    requires Parse(text).Some?
    ensures ValidAccount(Parse(text).value.account) && Text(Parse(text).value) == text
  {
    if StartsWith(text, LOCKOUT) {
      BetweenInverse(text, LOCKOUT, CLOSE);
    } else if StartsWith(text, CLEANUP) {
      BetweenInverse(text, CLEANUP, CLOSE);
    } else if StartsWith(text, TERMINATE) {
      BetweenInverse(text, TERMINATE, QUOTE);
    } else if StartsWith(text, KILL) {
      BetweenInverse(text, KILL, SYNC);
    } else {
      BetweenInverse(text, DROP, QUOTE);
    }
  }

  // ---- the three builders ------------------------------------------------------------------------

  datatype Refused = InvalidAccount(name: string)

  function Texts(actions: seq<Action>): seq<string> {
    seq(|actions|, i requires 0 <= i < |actions| => Text(actions[i]))
  }

  function LockoutStatements(db: Db, account: string): Result<seq<string>, Refused> {
    if !ValidAccount(account) then Err(InvalidAccount(account))
    else if db == Postgres then Ok(Texts([Lockout(account)]))
    else Ok([])
  }

  function TerminateStatements(db: Db, account: string): Result<seq<string>, Refused> {
    if !ValidAccount(account) then Err(InvalidAccount(account))
    else if db == Postgres then Ok(Texts([Terminate(account)]))
    else Ok(Texts([Kill(account)]))
  }

  function DropStatements(db: Db, account: string): Result<seq<string>, Refused> {
    if !ValidAccount(account) then Err(InvalidAccount(account))
    else if db == Postgres then Ok(Texts([Cleanup(account)]))
    else Ok(Texts([Kill(account), DropUser(account)]))
  }

  /** Every statement, once split and read back, acts on the one named account. */
  ghost predicate ActsOnlyOn(texts: seq<string>, account: string) {
    forall i :: 0 <= i < |texts| ==>
      && OneSemicolon(texts[i]) && Commands(texts[i]) == [texts[i][..|texts[i]| - 1]]
      && Parse(texts[i]).Some? && Parse(texts[i]).value.account == account
  }

  lemma Tails()
    ensures |CLOSE| > 1 && CLOSE[|CLOSE| - 1] == ';' && ';' !in CLOSE[..|CLOSE| - 1]
    ensures |SYNC| > 1 && SYNC[|SYNC| - 1] == ';' && ';' !in SYNC[..|SYNC| - 1]
    ensures |QUOTE| > 1 && QUOTE[|QUOTE| - 1] == ';' && ';' !in QUOTE[..|QUOTE| - 1]
  {
    assert SYNC[..|SYNC| - 1] == "' SYNC";
  }

  lemma TerminateHead()
    ensures ';' !in TERMINATE
  {
    assert ';' !in SELECT_PIDS;
    assert ';' !in FROM_ACTIVITY;
  }

  lemma AccountHasNoSemicolon(account: string)
    requires ValidAccount(account)
    ensures ';' !in account
  {
    forall i | 0 <= i < |account| ensures account[i] != ';' {
      if i < 5 {
        assert account[i] == account[..5][i];
      }
    }
  }

  lemma EndsOnceAround(before: string, account: string, after: string)
    requires ValidAccount(account) && before != "" && before[0] != ' ' && ';' !in before
    requires |after| > 1 && after[|after| - 1] == ';' && ';' !in after[..|after| - 1]
    ensures OneSemicolon(before + account + after)
  {
    AccountHasNoSemicolon(account);
    TextEndsOnce(before, "", "", account, after);
    assert before + "" + "" + account + after == before + account + after;
  }

  lemma ActionEndsOnce(a: Action)
    requires ValidAccount(a.account)
    ensures OneSemicolon(Text(a))
  {
    Starts();
    Tails();
    match a
    case Lockout(account) => EndsOnceAround(LOCKOUT, account, CLOSE);
    case Cleanup(account) => EndsOnceAround(CLEANUP, account, CLOSE);
    case Terminate(account) =>
      TerminateHead();
      EndsOnceAround(TERMINATE, account, QUOTE);
    case Kill(account) => EndsOnceAround(KILL, account, SYNC);
    case DropUser(account) => EndsOnceAround(DROP, account, QUOTE);
  }

  lemma TextsActOnlyOn(actions: seq<Action>, account: string)
    requires ValidAccount(account) && forall a :: a in actions ==> a.account == account
    ensures ActsOnlyOn(Texts(actions), account)
  {
    forall i | 0 <= i < |actions|
      ensures OneSemicolon(Text(actions[i])) && Parse(Text(actions[i])) == Some(actions[i])
      ensures Commands(Text(actions[i])) == [Text(actions[i])[..|Text(actions[i])| - 1]]
    {
      assert actions[i] in actions;
      ActionEndsOnce(actions[i]);
      SplitsToItself(Text(actions[i]));
      RoundTrip(actions[i]);
    }
  }

  /** All three refuse exactly the names the account pattern refuses; what they return is harmless
    * to every other account. */
  lemma MaintenanceIsGuarded(db: Db, account: string)
    ensures LockoutStatements(db, account).Ok? <==> ValidAccount(account)
    ensures TerminateStatements(db, account).Ok? <==> ValidAccount(account)
    ensures DropStatements(db, account).Ok? <==> ValidAccount(account)
    ensures ValidAccount(account) ==>
              && ActsOnlyOn(LockoutStatements(db, account).value, account)
              && ActsOnlyOn(TerminateStatements(db, account).value, account)
              && ActsOnlyOn(DropStatements(db, account).value, account)
  {
    if ValidAccount(account) {
      if db == Postgres {
        TextsActOnlyOn([Lockout(account)], account);
        TextsActOnlyOn([Terminate(account)], account);
        TextsActOnlyOn([Cleanup(account)], account);
      } else {
        TextsActOnlyOn([Kill(account)], account);
        TextsActOnlyOn([Kill(account), DropUser(account)], account);
      }
    }
  }

  /** The revocation a lease carries is the drop the portal would run, with Vault's placeholder as name. */
  lemma RevocationIsDrop()
    ensures [PG_CLEANUP] == Texts([Cleanup("{{name}}")])
    ensures [CH_KILL, CH_DROP] == Texts([Kill("{{name}}"), DropUser("{{name}}")])
  {
    assert PG_CLEANUP == CLEANUP + "{{name}}" + CLOSE;
    assert CH_KILL == KILL + "{{name}}" + SYNC;
    assert CH_DROP == DROP + "{{name}}" + QUOTE;
  }
}
