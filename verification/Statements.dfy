/** The statements of a grant as data, their exact text, and the parser that reads the text back. */
module Statements {
  import opened Names
  import opened Wrappers
  import opened SqlText

  const PG_COMMANDS: seq<string> := ["SELECT", "INSERT", "UPDATE", "DELETE"]
  const CH_COMMANDS: seq<string> := ["SELECT", "INSERT", "ALTER UPDATE", "ALTER DELETE"]

  // ---- PostgreSQL ----------------------------------------------------------------------------

  datatype PgStmt = CreateRole | GrantConnect | GrantUsage
                  | GrantTable(cmds: seq<string>, table: string) | GrantSequence(name: string)

  const PG_CREATE := CREATE_ROLE + SECRET + CONNECTION_LIMIT + ";"
  const CREATE_ROLE := "CREATE ROLE \"{{name}}\" WITH LOGIN PASSWORD "
  const CONNECTION_LIMIT := " CONNECTION LIMIT 5"
  const SECRET := "'{{password}}' VALID UNTIL '{{expiration}}'"
  const PG_CONNECT := ON_DATABASE + PG_GRANTEE + ";"
  const ON_DATABASE := "GRANT CONNECT ON DATABASE \"appdb\" TO "
  const PG_USAGE := ON_SCHEMA + PG_GRANTEE + ";"
  const ON_SCHEMA := "GRANT USAGE ON SCHEMA \"public\" TO "
  const PG_GRANTEE := "\"{{name}}\""
  const GRANT := "GRANT "
  const PG_ON_TABLE := " ON TABLE \"public\".\""
  const PG_SEQUENCE := "GRANT USAGE ON SEQUENCE \"public\".\""
  const PG_TO := "\" TO \"{{name}}\";"
  const PG_CLEANUP := "SELECT vdba.cleanup_role('{{name}}');"

  function PgText(s: PgStmt): string {
    match s
    case CreateRole => PG_CREATE
    case GrantConnect => PG_CONNECT
    case GrantUsage => PG_USAGE
    case GrantTable(cmds, table) => GRANT + Join(cmds) + PG_ON_TABLE + table + PG_TO
    case GrantSequence(name) => PG_SEQUENCE + name + PG_TO
  }

  predicate GoodCommands(cmds: seq<string>, allowed: seq<string>) {
    cmds != [] && forall c :: c in cmds ==> c in allowed
  }

  predicate PgGood(s: PgStmt) {
    match s
    case GrantTable(cmds, table) => GoodCommands(cmds, PG_COMMANDS) && IsIdentifier(table)
    case GrantSequence(name) => IsIdentifier(name)
    case _ => true
  }

  /** The fixed texts and the fixed parts of the others, letter by letter. */
  lemma PgTextsAreLiteral(cmds: seq<string>, name: string)
    ensures PgText(CreateRole)
         == "CREATE ROLE \"{{name}}\" WITH LOGIN PASSWORD " + "'{{password}}' VALID UNTIL '{{expiration}}'"
            + " CONNECTION LIMIT 5" + ";"
    ensures PgText(GrantConnect) == "GRANT CONNECT ON DATABASE \"appdb\" TO \"{{name}}\";"
    ensures PgText(GrantUsage) == "GRANT USAGE ON SCHEMA \"public\" TO \"{{name}}\";"
    ensures PgText(PgStmt.GrantTable(cmds, name))
         == "GRANT " + Join(cmds) + " ON TABLE \"public\".\"" + name + "\" TO \"{{name}}\";"
    ensures PgText(GrantSequence(name)) == "GRANT USAGE ON SEQUENCE \"public\".\"" + name + "\" TO \"{{name}}\";"
  {
  }

  /** `<identifier><tail>`, to the end of the text. */
  function ParseName(s: string, tail: string): Option<string> {
    var name := TakeIdentifier(s);
    if name.Some? && name.value.1 == tail then Some(name.value.0) else None
  }

  /** `GRANT <commands><on><identifier><tail>`. */
  function ParseTableGrant(s: string, allowed: seq<string>, on: string, tail: string): Option<(seq<string>, string)>
    requires forall c :: c in allowed ==> c != ""
  {
    var rest := Strip(s, GRANT);
    if rest.None? then None
    else
      var cmds := TakeCommands(rest.value, allowed);
      if cmds.None? then None
      else
        var named := Strip(cmds.value.1, on);
        if named.None? then None
        else
          var table := ParseName(named.value, tail);
          if table.None? then None else Some((cmds.value.0, table.value))
  }

  function PgParse(s: string): Option<PgStmt> {
    if s == PG_CREATE then Some(CreateRole)
    else if s == PG_CONNECT then Some(GrantConnect)
    else if s == PG_USAGE then Some(GrantUsage)
    else if StartsWith(s, PG_SEQUENCE) then
      var name := ParseName(s[|PG_SEQUENCE|..], PG_TO);
      if name.Some? then Some(GrantSequence(name.value)) else None
    else
      var grant := ParseTableGrant(s, PG_COMMANDS, PG_ON_TABLE, PG_TO);
      if grant.Some? then Some(PgStmt.GrantTable(grant.value.0, grant.value.1)) else None
  }

  // ---- ClickHouse ----------------------------------------------------------------------------

  datatype ChStmt = CreateUser | GrantTable(cmds: seq<string>, table: string)

  const CH_CREATE := CREATE_USER + IDENTIFIED + SECRET + ";"
  const CREATE_USER := "CREATE USER '{{name}}' "
  const IDENTIFIED := "IDENTIFIED WITH sha256_password BY "
  const CH_ON := " ON `appdb`.`"
  const CH_TO := "` TO '{{name}}';"
  const CH_KILL := "KILL QUERY WHERE user = '{{name}}' SYNC;"
  const CH_DROP := "DROP USER IF EXISTS '{{name}}';"

  function ChText(s: ChStmt): string {
    match s
    case CreateUser => CH_CREATE
    case GrantTable(cmds, table) => GRANT + Join(cmds) + CH_ON + table + CH_TO
  }

  predicate ChGood(s: ChStmt) {
    s.GrantTable? ==> GoodCommands(s.cmds, CH_COMMANDS) && IsIdentifier(s.table)
  }

  function ChParse(s: string): Option<ChStmt> {
    if s == CH_CREATE then Some(CreateUser)
    else
      var grant := ParseTableGrant(s, CH_COMMANDS, CH_ON, CH_TO);
      if grant.Some? then Some(ChStmt.GrantTable(grant.value.0, grant.value.1)) else None
  }

  lemma ChTextsAreLiteral(cmds: seq<string>, name: string)
    ensures ChText(CreateUser)
         == "CREATE USER '{{name}}' " + "IDENTIFIED WITH sha256_password BY "
            + "'{{password}}' VALID UNTIL '{{expiration}}'" + ";"
    ensures ChText(ChStmt.GrantTable(cmds, name)) == "GRANT " + Join(cmds) + " ON `appdb`.`" + name + "` TO '{{name}}';"
  {
  }

  // ---- the two vocabularies ------------------------------------------------------------------

  lemma PgPrefixFree()
    ensures PrefixFree(PG_COMMANDS)
  {
    forall i, j | 0 <= i < j < |PG_COMMANDS| ensures Differ(PG_COMMANDS[i], PG_COMMANDS[j]) {
      assert PG_COMMANDS[i][0] != PG_COMMANDS[j][0];
    }
  }

  lemma ChPrefixFree()
    ensures PrefixFree(CH_COMMANDS)
  {
    forall i, j | 0 <= i < j < |CH_COMMANDS| ensures Differ(CH_COMMANDS[i], CH_COMMANDS[j]) {
      assert i < 2 ==> CH_COMMANDS[i][0] != CH_COMMANDS[j][0];
      assert i == 2 ==> CH_COMMANDS[i][6] != CH_COMMANDS[j][6];
    }
  }

  // ---- print and parse are inverse -----------------------------------------------------------

  lemma ParsesTableGrant(cmds: seq<string>, table: string, allowed: seq<string>, on: string, tail: string)
    requires PrefixFree(allowed) && (forall c :: c in allowed ==> c != "") && GoodCommands(cmds, allowed)
    requires IsIdentifier(table) && tail != "" && !WordChar(tail[0]) && on != "" && on[0] != ','
    ensures ParseTableGrant(GRANT + Join(cmds) + on + table + tail, allowed, on, tail) == Some((cmds, table))
  {
    var text := GRANT + Join(cmds) + on + table + tail;
    assert text == GRANT + (Join(cmds) + (on + (table + tail)));
    StripPrefix(GRANT, Join(cmds) + (on + (table + tail)));
    assert (on + (table + tail))[0] == on[0];
    TakesCommands(cmds, on + (table + tail), allowed);
    StripPrefix(on, table + tail);
    TakesIdentifier(table, tail);
  }

  lemma TableGrantInverse(s: string, allowed: seq<string>, on: string, tail: string)
    requires (forall c :: c in allowed ==> c != "") && ParseTableGrant(s, allowed, on, tail).Some?
    ensures var (cmds, table) := ParseTableGrant(s, allowed, on, tail).value;
            GoodCommands(cmds, allowed) && IsIdentifier(table) && s == GRANT + Join(cmds) + on + table + tail
  {
    var rest := Strip(s, GRANT).value;
    StripInverse(s, GRANT);
    TakeCommandsInverse(rest, allowed);
    var (cmds, after) := TakeCommands(rest, allowed).value;
    StripInverse(after, on);
    var named := Strip(after, on).value;
    var table := TakeIdentifier(named).value.0;
    assert named == table + tail;
    FivePieces(GRANT, Join(cmds), on, table, tail);
  }

  lemma FivePieces(a: string, b: string, c: string, d: string, e: string)
    ensures a + (b + (c + (d + e))) == a + b + c + d + e
  {
  }

  lemma NameInverse(s: string, prefix: string, tail: string)
    requires StartsWith(s, prefix) && ParseName(s[|prefix|..], tail).Some?
    ensures var name := ParseName(s[|prefix|..], tail).value; IsIdentifier(name) && s == prefix + name + tail
  {
    var rest := s[|prefix|..];
    var name := TakeIdentifier(rest).value.0;
    assert rest == name + tail;
    assert s == prefix + (name + tail);
  }

  /** The first two letters of a command list tell it from the fixed grants. */
  lemma PgCommandsStart(cmds: seq<string>, rest: string)
    requires GoodCommands(cmds, PG_COMMANDS)
    ensures |Join(cmds)| >= 6 && (GRANT + Join(cmds) + rest)[6] != 'C'
    ensures (GRANT + Join(cmds) + rest)[6] == 'U' ==> (GRANT + Join(cmds) + rest)[7] == 'P'
  {
    assert cmds[0] in PG_COMMANDS;
    assert |Join(cmds)| >= |cmds[0]| == 6;
    assert Join(cmds)[..6] == cmds[0];
    assert (GRANT + Join(cmds) + rest)[6] == Join(cmds)[0] == cmds[0][0];
    assert (GRANT + Join(cmds) + rest)[7] == Join(cmds)[1] == cmds[0][1];
  }

  /** Characters at which the fixed texts can be told apart. */
  lemma FixedStarts()
    ensures |PG_CREATE| > 16 && PG_CREATE[0] == 'C'
    ensures |PG_CONNECT| > 16 && PG_CONNECT[0] == 'G' && PG_CONNECT[6] == 'C'
    ensures |PG_USAGE| > 16 && PG_USAGE[0] == 'G' && PG_USAGE[6] == 'U' && PG_USAGE[7] == 'S' && PG_USAGE[16] == 'C'
    ensures |PG_SEQUENCE| > 16 && PG_SEQUENCE[0] == 'G' && PG_SEQUENCE[6] == 'U' && PG_SEQUENCE[7] == 'S' && PG_SEQUENCE[16] == 'E'
    ensures |CH_CREATE| > 0 && CH_CREATE[0] == 'C'
  {
    assert CREATE_ROLE[0] == 'C' && CREATE_USER[0] == 'C';
    assert ON_DATABASE[0] == 'G' && ON_DATABASE[6] == 'C';
    assert ON_SCHEMA[0] == 'G' && ON_SCHEMA[6] == 'U' && ON_SCHEMA[7] == 'S' && ON_SCHEMA[16] == 'C';
  }

  lemma FixedRoundTrip()
    ensures PgParse(PG_CREATE) == Some(CreateRole)
    ensures PgParse(PG_CONNECT) == Some(GrantConnect)
    ensures PgParse(PG_USAGE) == Some(GrantUsage)
  {
    FixedStarts();
  }

  /** A text that starts like a table grant is none of the fixed texts and no sequence grant. */
  lemma TableGrantStarts(text: string)
    requires |text| > 16 && text[0] == 'G' && text[6] != 'C' && (text[6] == 'U' ==> text[7] == 'P')
    ensures text != PG_CREATE && text != PG_CONNECT && text != PG_USAGE && !StartsWith(text, PG_SEQUENCE)
  {
    FixedStarts();
  }

  lemma TableRoundTrip(cmds: seq<string>, table: string)
    requires GoodCommands(cmds, PG_COMMANDS) && IsIdentifier(table)
    ensures PgParse(PgText(PgStmt.GrantTable(cmds, table))) == Some(PgStmt.GrantTable(cmds, table))
  {
    var text := GRANT + Join(cmds) + PG_ON_TABLE + table + PG_TO;
    TableText(cmds, table);
    TableGrantStarts(text);
    PgPrefixFree();
    PgTableEnds();
    ParsesTableGrant(cmds, table, PG_COMMANDS, PG_ON_TABLE, PG_TO);
  }

  lemma TableText(cmds: seq<string>, table: string)
    requires GoodCommands(cmds, PG_COMMANDS)
    ensures var text := GRANT + Join(cmds) + PG_ON_TABLE + table + PG_TO;
            |text| > 16 && text[0] == 'G' && text[6] != 'C' && (text[6] == 'U' ==> text[7] == 'P')
  {
    var rest := PG_ON_TABLE + table + PG_TO;
    assert GRANT + Join(cmds) + PG_ON_TABLE + table + PG_TO == GRANT + Join(cmds) + rest;
    PgCommandsStart(cmds, rest);
    assert |PG_ON_TABLE| > 10 && GRANT[0] == 'G';
  }

  lemma PgTableEnds()
    ensures PG_TO != "" && !WordChar(PG_TO[0]) && PG_ON_TABLE != "" && PG_ON_TABLE[0] != ','
  {
  }

  lemma SequenceRoundTrip(name: string)
    requires IsIdentifier(name)
    ensures PgParse(PgText(GrantSequence(name))) == Some(GrantSequence(name))
  {
    var text := PG_SEQUENCE + name + PG_TO;
    FixedStarts();
    PgTableEnds();
    assert text == PG_SEQUENCE + (name + PG_TO);
    assert text[0] == 'G' && text[6] == 'U' && text[16] == 'E';
    StripPrefix(PG_SEQUENCE, name + PG_TO);
    TakesIdentifier(name, PG_TO);
  }

  lemma PgRoundTrip(s: PgStmt)
    requires PgGood(s)
    ensures PgParse(PgText(s)) == Some(s)
  {
    FixedRoundTrip();
    match s
    case GrantTable(cmds, table) => TableRoundTrip(cmds, table);
    case GrantSequence(name) => SequenceRoundTrip(name);
    case _ =>
  }

  /** The parser accepts nothing but the text of a well-formed statement. */
  lemma PgParseIsExact(text: string)
    requires PgParse(text).Some?
    ensures PgGood(PgParse(text).value) && PgText(PgParse(text).value) == text
  {
    if text == PG_CREATE || text == PG_CONNECT || text == PG_USAGE {
    } else if StartsWith(text, PG_SEQUENCE) {
      NameInverse(text, PG_SEQUENCE, PG_TO);
    } else {
      TableGrantInverse(text, PG_COMMANDS, PG_ON_TABLE, PG_TO);
    }
  }

  lemma ChRoundTrip(s: ChStmt)
    requires ChGood(s)
    ensures ChParse(ChText(s)) == Some(s)
  {
    if s.GrantTable? {
      FixedStarts();
      assert ChText(s)[0] == 'G';
      ChPrefixFree();
      ParsesTableGrant(s.cmds, s.table, CH_COMMANDS, CH_ON, CH_TO);
    }
  }

  lemma ChParseIsExact(text: string)
    requires ChParse(text).Some?
    ensures ChGood(ChParse(text).value) && ChText(ChParse(text).value) == text
  {
    if text != CH_CREATE {
      TableGrantInverse(text, CH_COMMANDS, CH_ON, CH_TO);
    }
  }

  // ---- one statement, one command ------------------------------------------------------------

  lemma {:induction false} JoinHasNo(cmds: seq<string>, x: char)
    requires (forall c :: c in cmds ==> x !in c) && x != ',' && x != ' '
    ensures x !in Join(cmds)
    decreases |cmds|
  {
    if |cmds| > 1 {
      assert cmds[0] in cmds;
      JoinHasNo(cmds[1..], x);
    }
  }

  lemma TextEndsOnce(pre: string, cmds: string, on: string, name: string, tail: string)
    requires ';' !in pre && ';' !in cmds && ';' !in on && ';' !in name
    requires |tail| > 1 && tail[|tail| - 1] == ';' && ';' !in tail[..|tail| - 1]
    requires pre != "" && pre[0] != ' '
    ensures OneSemicolon(pre + cmds + on + name + tail)
  {
    var s := pre + cmds + on + name + tail;
    assert s[..|s| - 1] == pre + cmds + on + name + tail[..|tail| - 1];
  }

  lemma EndsOnce(body: string)
    requires ';' !in body && body != "" && body[0] != ' '
    ensures OneSemicolon(body + ";")
  {
    assert (body + ";")[..|body|] == body;
  }

  lemma PgTail()
    ensures |PG_TO| > 1 && PG_TO[|PG_TO| - 1] == ';' && ';' !in PG_TO[..|PG_TO| - 1]
  {
    assert PG_TO[..|PG_TO| - 1] == "\" TO \"{{name}}\"";
  }

  lemma JoinHasNoSemicolon(cmds: seq<string>, allowed: seq<string>)
    requires GoodCommands(cmds, allowed) && forall c :: c in allowed ==> ';' !in c
    ensures ';' !in Join(cmds)
  {
    JoinHasNo(cmds, ';');
  }

  lemma CreateEndsOnce()
    ensures OneSemicolon(PG_CREATE)
  {
    assert ';' !in CREATE_ROLE && CREATE_ROLE[0] == 'C';
    assert ';' !in SECRET && ';' !in CONNECTION_LIMIT;
    EndsOnce(CREATE_ROLE + SECRET + CONNECTION_LIMIT);
  }

  lemma ConnectEndsOnce()
    ensures OneSemicolon(PG_CONNECT)
  {
    EndsOnce(ON_DATABASE + PG_GRANTEE);
  }

  lemma UsageEndsOnce()
    ensures OneSemicolon(PG_USAGE)
  {
    EndsOnce(ON_SCHEMA + PG_GRANTEE);
  }

  lemma PgTableGrantEndsOnce(cmds: seq<string>, table: string)
    requires GoodCommands(cmds, PG_COMMANDS) && IsIdentifier(table)
    ensures OneSemicolon(GRANT + Join(cmds) + PG_ON_TABLE + table + PG_TO)
  {
    JoinHasNoSemicolon(cmds, PG_COMMANDS);
    PgTail();
    TextEndsOnce(GRANT, Join(cmds), PG_ON_TABLE, table, PG_TO);
  }

  lemma PgSequenceGrantEndsOnce(name: string)
    requires IsIdentifier(name)
    ensures OneSemicolon(PG_SEQUENCE + name + PG_TO)
  {
    PgTail();
    TextEndsOnce(PG_SEQUENCE, "", "", name, PG_TO);
    assert PG_SEQUENCE + name + PG_TO == PG_SEQUENCE + "" + "" + name + PG_TO;
  }

  lemma PgOneSemicolon(s: PgStmt)
    requires PgGood(s)
    ensures OneSemicolon(PgText(s))
  {
    match s
    case CreateRole => CreateEndsOnce();
    case GrantConnect => ConnectEndsOnce();
    case GrantUsage => UsageEndsOnce();
    case GrantTable(cmds, table) => PgTableGrantEndsOnce(cmds, table);
    case GrantSequence(name) => PgSequenceGrantEndsOnce(name);
  }

  lemma ChCreateEndsOnce()
    ensures OneSemicolon(CH_CREATE)
  {
    assert ';' !in CREATE_USER && CREATE_USER[0] == 'C';
    assert ';' !in IDENTIFIED && ';' !in SECRET;
    EndsOnce(CREATE_USER + IDENTIFIED + SECRET);
  }

  lemma ChTableGrantEndsOnce(cmds: seq<string>, table: string)
    requires GoodCommands(cmds, CH_COMMANDS) && IsIdentifier(table)
    ensures OneSemicolon(GRANT + Join(cmds) + CH_ON + table + CH_TO)
  {
    JoinHasNoSemicolon(cmds, CH_COMMANDS);
    assert CH_TO[..|CH_TO| - 1] == "` TO '{{name}}'";
    TextEndsOnce(GRANT, Join(cmds), CH_ON, table, CH_TO);
  }

  lemma ChOneSemicolon(s: ChStmt)
    requires ChGood(s)
    ensures OneSemicolon(ChText(s))
  {
    match s
    case CreateUser => ChCreateEndsOnce();
    case GrantTable(cmds, table) => ChTableGrantEndsOnce(cmds, table);
  }
}
