/** The grant compiler: a request and the catalog go in, the SQL stored in the Vault role comes out.
  * Methods follow the source; the plan they are proved against is data, read back in `Power`. */
module Builder {
  import opened Names
  import opened Wrappers
  import opened SqlText
  import opened Statements

  datatype Scope = Database | Tables

  datatype Problem = NoCommand | CommandNotAllowed(cmd: string) | NoTableExists | NoTableSelected
                   | BadIdentifier(name: string) | UnknownTable(name: string)

  // ---- ordered names -------------------------------------------------------------------------

  /** Python's order on strings. */
  predicate Leq(a: string, b: string) {
    if a == "" then true
    else if b == "" then false
    else if a[0] != b[0] then a[0] < b[0]
    else Leq(a[1..], b[1..])
  }

  lemma {:induction false} LeqTotal(a: string, b: string)
    ensures Leq(a, b) || Leq(b, a)
    ensures Leq(a, b) && Leq(b, a) ==> a == b
  {
    if a != "" && b != "" && a[0] == b[0] {
      LeqTotal(a[1..], b[1..]);
      assert a == [a[0]] + a[1..] && b == [b[0]] + b[1..];
    }
  }

  lemma {:induction false} LeqTransitive(a: string, b: string, c: string)
    requires Leq(a, b) && Leq(b, c)
    ensures Leq(a, c)
  {
    if a != "" && b != "" && c != "" && a[0] == b[0] == c[0] {
      LeqTransitive(a[1..], b[1..], c[1..]);
    }
  }

  predicate Least(m: string, names: set<string>) {
    m in names && forall x :: x in names ==> Leq(m, x)
  }

  lemma {:induction false} LeastExists(names: set<string>)
    requires names != {}
    ensures exists m :: Least(m, names)
    decreases |names|
  {
    var x :| x in names;
    var rest := names - {x};
    if rest == {} {
      LeqTotal(x, x);
      assert names == {x};
      assert Least(x, names);
    } else {
      LeastExists(rest);
      var m :| Least(m, rest);
      var l := if Leq(m, x) then m else x;
      forall y | y in names ensures Leq(l, y) {
        LeqTotal(m, x);
        LeqTotal(x, x);
        if y != x && l == x {
          LeqTransitive(x, m, y);
        }
      }
      assert Least(l, names);
    }
  }

  lemma LeastIsUnique(names: set<string>)
    ensures forall a, b :: Least(a, names) && Least(b, names) ==> a == b
  {
    forall a, b | Least(a, names) && Least(b, names) ensures a == b {
      LeqTotal(a, b);
    }
  }

  /** `sorted(names)`. */
  function Sorted(names: set<string>): (r: seq<string>)
    ensures forall x :: x in r <==> x in names
    ensures |r| == |names|
    ensures forall i, j :: 0 <= i < j < |r| ==> r[i] != r[j] && Leq(r[i], r[j])
    decreases |names|
  {
    if names == {} then []
    else
      LeastExists(names);
      LeastIsUnique(names);
      var m :| Least(m, names);
      [m] + Sorted(names - {m})
  }

  /** `list(dict.fromkeys(xs))`. */
  function Dedup(xs: seq<string>): (r: seq<string>)
    ensures forall x :: x in r <==> x in xs
    ensures forall i, j :: 0 <= i < j < |r| ==> r[i] != r[j]
    ensures |r| <= |xs| && (r == [] <==> xs == [])
  {
    if xs == [] then []
    else
      var last := |xs| - 1;
      assert xs == xs[..last] + [xs[last]];
      var init := Dedup(xs[..last]);
      if xs[last] in init then init else init + [xs[last]]
  }

  /** Somewhere in `xs` stands `a`, with no `b` so far. */
  ghost predicate ComesBefore(xs: seq<string>, a: string, b: string) {
    exists p :: 0 <= p < |xs| && xs[p] == a && b !in xs[..p + 1]
  }

  lemma PrefixShows(xs: seq<string>, n: nat, a: string, b: string)
    requires n <= |xs| && ComesBefore(xs[..n], a, b)
    ensures ComesBefore(xs, a, b)
  {
    var p :| 0 <= p < n && xs[..n][p] == a && b !in xs[..n][..p + 1];
    assert xs[..n][..p + 1] == xs[..p + 1];
  }

  lemma NewComesAfter(xs: seq<string>, n: nat, a: string, b: string)
    requires n <= |xs| && a in xs[..n] && b !in xs[..n]
    ensures ComesBefore(xs, a, b)
  {
    var p :| 0 <= p < n && xs[..n][p] == a;
    assert xs[..p + 1] == xs[..n][..p + 1];
  }

  /** What is kept appears in order of first occurrence. */
  lemma {:induction false} DedupKeepsOrder(xs: seq<string>, i: nat, j: nat)
    requires i < j < |Dedup(xs)|
    ensures ComesBefore(xs, Dedup(xs)[i], Dedup(xs)[j])
    decreases |xs|
  {
    var last := |xs| - 1;
    var init := Dedup(xs[..last]);
    if j < |init| {
      DedupKeepsOrder(xs[..last], i, j);
      PrefixShows(xs, last, init[i], init[j]);
    } else {
      NewComesAfter(xs, last, init[i], xs[last]);
    }
  }

  // ---- what a request means --------------------------------------------------------------------

  /** The tables a request asks for, as a set. */
  ghost function Wanted(scope: Scope, tables: seq<string>, known: set<string>): set<string> {
    if scope == Database then known else set t | t in tables
  }

  ghost predicate CommandsAccepted(commands: seq<string>, allowed: seq<string>) {
    GoodCommands(commands, allowed)
  }

  ghost predicate TablesAccepted(scope: Scope, tables: seq<string>, known: set<string>) {
    && Wanted(scope, tables, known) != {}
    && forall t :: t in Wanted(scope, tables, known) ==> IsIdentifier(t) && t in known
  }

  function Chosen(scope: Scope, tables: seq<string>, known: set<string>): (r: seq<string>)
    ensures forall t :: t in r <==> t in Wanted(scope, tables, known)
    ensures forall i, j :: 0 <= i < j < |r| ==> r[i] != r[j]
  {
    if scope == Database then Sorted(known) else Dedup(tables)
  }

  function Owned(sequences: map<string, seq<string>>, t: string): seq<string> {
    if t in sequences then sequences[t] else []
  }

  ghost predicate SequencesAccepted(chosen: seq<string>, sequences: map<string, seq<string>>) {
    forall t, s :: t in chosen && s in Owned(sequences, t) ==> IsIdentifier(s)
  }

  // ---- the checks -------------------------------------------------------------------------------

  ghost predicate FirstBadCommand(commands: seq<string>, allowed: seq<string>, problem: Problem) {
    exists i :: 0 <= i < |commands| && problem == CommandNotAllowed(commands[i]) && commands[i] !in allowed
                && forall k :: 0 <= k < i ==> commands[k] in allowed
  }

  ghost predicate FirstBadTable(chosen: seq<string>, known: set<string>, problem: Problem) {
    exists i :: 0 <= i < |chosen| && (!IsIdentifier(chosen[i]) || chosen[i] !in known)
                && (forall k :: 0 <= k < i ==> IsIdentifier(chosen[k]) && chosen[k] in known)
                && problem == if IsIdentifier(chosen[i]) then UnknownTable(chosen[i]) else BadIdentifier(chosen[i])
  }

  /** The first name that is no identifier. */
  ghost predicate FirstBadName(names: seq<string>, problem: Problem) {
    exists j :: 0 <= j < |names| && !IsIdentifier(names[j]) && problem == BadIdentifier(names[j])
                && AllIdentifiers(names[..j])
  }

  /** ... among the sequences the chosen tables own, table by table. */
  ghost predicate FirstBadSequence(chosen: seq<string>, sequences: map<string, seq<string>>, problem: Problem) {
    exists i :: 0 <= i < |chosen| && FirstBadName(Owned(sequences, chosen[i]), problem)
                && SequencesAccepted(chosen[..i], sequences)
  }

  /** Why a command list is refused. */
  ghost predicate CommandProblem(commands: seq<string>, allowed: seq<string>, problem: Problem) {
    if commands == [] then problem == NoCommand else FirstBadCommand(commands, allowed, problem)
  }

  /** Why a choice of tables is refused. */
  ghost predicate TableProblem(scope: Scope, tables: seq<string>, known: set<string>, problem: Problem) {
    if Wanted(scope, tables, known) == {} then problem == if scope == Database then NoTableExists else NoTableSelected
    else FirstBadTable(Chosen(scope, tables, known), known, problem)
  }

  method JoinCommands(commands: seq<string>, allowed: seq<string>) returns (r: Result<string, Problem>)
    ensures r.Ok? <==> CommandsAccepted(commands, allowed)
    ensures r.Ok? ==> r.value == Join(Dedup(commands))
    ensures r.Err? ==> CommandProblem(commands, allowed, r.error)
  {
    if commands == [] {
      return Err(NoCommand);
    }
    for i := 0 to |commands|
      invariant forall k :: 0 <= k < i ==> commands[k] in allowed
    {
      if commands[i] !in allowed {
        return Err(CommandNotAllowed(commands[i]));
      }
    }
    return Ok(Join(Dedup(commands)));
  }

  method ChooseTables(scope: Scope, tables: seq<string>, known: set<string>) returns (r: Result<seq<string>, Problem>)
    ensures r.Ok? <==> TablesAccepted(scope, tables, known)
    ensures r.Ok? ==> r.value == Chosen(scope, tables, known)
    ensures r.Err? ==> TableProblem(scope, tables, known, r.error)
    ensures r.Err? && r.error.UnknownTable? ==> scope == Tables
  {
    var chosen := Chosen(scope, tables, known);
    if chosen == [] {
      assert forall t :: t !in Wanted(scope, tables, known);
      return Err(if scope == Database then NoTableExists else NoTableSelected);
    }
    assert chosen[0] in Wanted(scope, tables, known);
    for i := 0 to |chosen|
      invariant forall k :: 0 <= k < i ==> IsIdentifier(chosen[k]) && chosen[k] in known
    {
      assert chosen[i] in Wanted(scope, tables, known);
      if !IsIdentifier(chosen[i]) {
        return Err(BadIdentifier(chosen[i]));
      }
      if chosen[i] !in known {
        return Err(UnknownTable(chosen[i]));
      }
    }
    return Ok(chosen);
  }

  // ---- the substring test ------------------------------------------------------------------------

  /** Python's `part in text`. */
  predicate Contains(text: string, part: string) {
    exists i :: 0 <= i <= |text| && StartsWith(text[i..], part)
  }

  /** On a list of PostgreSQL commands the substring test for INSERT is list membership. */
  lemma {:induction false} SubstringIsMembership(cmds: seq<string>)
    requires GoodCommands(cmds, PG_COMMANDS)
    ensures Contains(Join(cmds), "INSERT") <==> "INSERT" in cmds
    decreases |cmds|
  {
    var text := Join(cmds);
    var c := cmds[0];
    assert c in PG_COMMANDS && |c| == 6;
    if |cmds| == 1 {
      assert cmds == [c] && text == c && c[0..] == c;
      if i :| 0 <= i <= |text| && StartsWith(text[i..], "INSERT") {
        assert i == 0 && c == "INSERT";
      }
    } else {
      var rest := Join(cmds[1..]);
      SubstringIsMembership(cmds[1..]);
      assert text == c + ", " + rest && cmds == [c] + cmds[1..];
      if c == "INSERT" {
        assert StartsWith(text[0..], "INSERT");
      }
      if i :| 0 <= i <= |rest| && StartsWith(rest[i..], "INSERT") {
        assert text[i + 8..] == rest[i..];
      }
      if i :| 0 <= i <= |text| && StartsWith(text[i..], "INSERT") && c != "INSERT" {
        LaterIsInRest(c, rest, i);
      }
    }
  }

  /** The letter I stands in INSERT alone, so an occurrence begins with that command or lies beyond it. */
  lemma LaterIsInRest(c: string, rest: string, i: nat)
    requires c in PG_COMMANDS && c != "INSERT"
    requires i <= |c| + 2 + |rest| && StartsWith((c + ", " + rest)[i..], "INSERT")
    ensures Contains(rest, "INSERT")
  {
    var text := c + ", " + rest;
    assert text[i] == text[i..][..6][0] == 'I';
    assert text[6] == ',' && text[7] == ' ';
    assert text[..6] == c;
    assert (c + ", ") + rest == text && |c + ", "| == 8;
    assert rest[i - 8..] == text[i..];
  }

  // ---- the plan -----------------------------------------------------------------------------------

  function TableGrants(cmds: seq<string>, chosen: seq<string>): seq<PgStmt> {
    seq(|chosen|, i requires 0 <= i < |chosen| => PgStmt.GrantTable(cmds, chosen[i]))
  }

  function SequenceGrants(chosen: seq<string>, sequences: map<string, seq<string>>): (r: seq<PgStmt>)
    ensures forall x :: x in r <==> x.GrantSequence? && exists t :: t in chosen && x.name in Owned(sequences, t)
  {
    if chosen == [] then []
    else
      var last := |chosen| - 1;
      assert chosen == chosen[..last] + [chosen[last]];
      SequenceGrants(chosen[..last], sequences) + OneTableSequences(Owned(sequences, chosen[last]))
  }

  function OneTableSequences(names: seq<string>): (r: seq<PgStmt>)
    ensures forall x :: x in r <==> x.GrantSequence? && x.name in names
  {
    if names == [] then []
    else
      var last := |names| - 1;
      assert names == names[..last] + [names[last]];
      OneTableSequences(names[..last]) + [GrantSequence(names[last])]
  }

  const FIXED: seq<PgStmt> := [CreateRole, GrantConnect, GrantUsage]

  function PgPlan(cmds: seq<string>, chosen: seq<string>, sequences: map<string, seq<string>>): seq<PgStmt> {
    FIXED + TableGrants(cmds, chosen)
    + if "INSERT" in cmds then SequenceGrants(chosen, sequences) else []
  }

  function ChPlan(cmds: seq<string>, chosen: seq<string>): seq<ChStmt> {
    [CreateUser] + seq(|chosen|, i requires 0 <= i < |chosen| => ChStmt.GrantTable(cmds, chosen[i]))
  }

  function PgTexts(plan: seq<PgStmt>): seq<string> {
    seq(|plan|, i requires 0 <= i < |plan| => PgText(plan[i]))
  }

  function ChTexts(plan: seq<ChStmt>): seq<string> {
    seq(|plan|, i requires 0 <= i < |plan| => ChText(plan[i]))
  }

  // ---- the two builders ---------------------------------------------------------------------------

  method BuildPostgres(scope: Scope, tables: seq<string>, commands: seq<string>, known: set<string>,
                       sequences: map<string, seq<string>>)
    returns (r: Result<(seq<string>, seq<string>), Problem>)
    ensures r.Ok? <==> CommandsAccepted(commands, PG_COMMANDS) && TablesAccepted(scope, tables, known)
                       && ("INSERT" in commands ==> SequencesAccepted(Chosen(scope, tables, known), sequences))
    ensures r.Ok? ==> r.value.0 == PgTexts(PgPlan(Dedup(commands), Chosen(scope, tables, known), sequences))
                      && r.value.1 == [PG_CLEANUP]
    ensures r.Err? ==>
              if !CommandsAccepted(commands, PG_COMMANDS) then CommandProblem(commands, PG_COMMANDS, r.error)
              else if !TablesAccepted(scope, tables, known) then TableProblem(scope, tables, known, r.error)
              else FirstBadSequence(Chosen(scope, tables, known), sequences, r.error)
  {
    var cmds := JoinCommands(commands, PG_COMMANDS);
    if cmds.Err? {
      return Err(cmds.error);
    }
    var names := ChooseTables(scope, tables, known);
    if names.Err? {
      return Err(names.error);
    }
    var chosen := names.value;
    ghost var list := Dedup(commands);
    SubstringIsMembership(list);
    var statements := [PG_CREATE, PG_CONNECT, PG_USAGE];
    FixedTexts();
    var granted := TableStatements(cmds.value, list, chosen);
    TextsJoin(FIXED, TableGrants(list, chosen));
    statements := statements + granted;
    if Contains(cmds.value, "INSERT") {
      var owned := SequenceStatements(chosen, sequences);
      if owned.Err? {
        return Err(owned.error);
      }
      TextsJoin(FIXED + TableGrants(list, chosen), SequenceGrants(chosen, sequences));
      statements := statements + owned.value;
    }
    return Ok((statements, [PG_CLEANUP]));
  }

  /** The loop over the chosen tables. */
  method TableStatements(cmds: string, ghost list: seq<string>, chosen: seq<string>) returns (statements: seq<string>)
    requires cmds == Join(list)
    ensures statements == PgTexts(TableGrants(list, chosen))
  {
    statements := [];
    for i := 0 to |chosen|
      invariant statements == PgTexts(TableGrants(list, chosen[..i]))
    {
      statements := statements + [GRANT + cmds + PG_ON_TABLE + chosen[i] + PG_TO];
      OneMoreTable(list, chosen, i);
    }
    assert chosen[..|chosen|] == chosen;
  }

  /** The nested loop over the sequences the chosen tables own. */
  method SequenceStatements(chosen: seq<string>, sequences: map<string, seq<string>>)
    returns (r: Result<seq<string>, Problem>)
    ensures r.Ok? <==> SequencesAccepted(chosen, sequences)
    ensures r.Ok? ==> r.value == PgTexts(SequenceGrants(chosen, sequences))
    ensures r.Err? ==> FirstBadSequence(chosen, sequences, r.error)
  {
    var statements := [];
    for i := 0 to |chosen|
      invariant statements == PgTexts(SequenceGrants(chosen[..i], sequences))
      invariant SequencesAccepted(chosen[..i], sequences)
    {
      var names := Owned(sequences, chosen[i]);
      var granted := OwnedStatements(names);
      if granted.Err? {
        RefusedSequence(chosen, sequences, i, granted.error);
        return Err(granted.error);
      }
      statements := statements + granted.value;
      OneMoreOwner(chosen, sequences, i);
      OneMoreAccepted(chosen, sequences, i);
    }
    assert chosen[..|chosen|] == chosen;
    return Ok(statements);
  }

  /** Its inner loop: the sequences of one table. */
  method OwnedStatements(names: seq<string>) returns (r: Result<seq<string>, Problem>)
    ensures r.Ok? <==> AllIdentifiers(names)
    ensures r.Ok? ==> r.value == PgTexts(OneTableSequences(names))
    ensures r.Err? ==> FirstBadName(names, r.error)
  {
    var statements := [];
    for j := 0 to |names|
      invariant statements == PgTexts(OneTableSequences(names[..j]))
      invariant AllIdentifiers(names[..j])
    {
      if !IsIdentifier(names[j]) {
        return Err(BadIdentifier(names[j]));
      }
      statements := statements + [PG_SEQUENCE + names[j] + PG_TO];
      OneMoreSequence(names, j);
      assert names[..j + 1] == names[..j] + [names[j]];
    }
    assert names[..|names|] == names;
    return Ok(statements);
  }

  ghost predicate AllIdentifiers(names: seq<string>) {
    forall s :: s in names ==> IsIdentifier(s)
  }

  lemma OneMoreSequence(names: seq<string>, j: nat)
    requires j < |names|
    ensures PgTexts(OneTableSequences(names[..j + 1]))
         == PgTexts(OneTableSequences(names[..j])) + [PG_SEQUENCE + names[j] + PG_TO]
  {
    assert names[..j + 1][..j] == names[..j];
    OneMoreText(OneTableSequences(names[..j]), GrantSequence(names[j]));
  }

  lemma RefusedSequence(chosen: seq<string>, sequences: map<string, seq<string>>, i: nat, problem: Problem)
    requires i < |chosen| && FirstBadName(Owned(sequences, chosen[i]), problem)
    requires SequencesAccepted(chosen[..i], sequences)
    ensures !SequencesAccepted(chosen, sequences) && FirstBadSequence(chosen, sequences, problem)
  {
    assert chosen[i] in chosen;
  }

  lemma OneMoreAccepted(chosen: seq<string>, sequences: map<string, seq<string>>, i: nat)
    requires i < |chosen| && SequencesAccepted(chosen[..i], sequences)
    requires AllIdentifiers(Owned(sequences, chosen[i]))
    ensures SequencesAccepted(chosen[..i + 1], sequences)
  {
    assert chosen[..i + 1] == chosen[..i] + [chosen[i]];
  }

  lemma OneMoreOwner(chosen: seq<string>, sequences: map<string, seq<string>>, i: nat)
    requires i < |chosen|
    ensures PgTexts(SequenceGrants(chosen[..i + 1], sequences))
         == PgTexts(SequenceGrants(chosen[..i], sequences)) + PgTexts(OneTableSequences(Owned(sequences, chosen[i])))
  {
    assert chosen[..i + 1][..i] == chosen[..i];
    TextsJoin(SequenceGrants(chosen[..i], sequences), OneTableSequences(Owned(sequences, chosen[i])));
  }

  lemma OneMoreTable(cmds: seq<string>, chosen: seq<string>, i: nat)
    requires i < |chosen|
    ensures PgTexts(TableGrants(cmds, chosen[..i + 1]))
         == PgTexts(TableGrants(cmds, chosen[..i])) + [GRANT + Join(cmds) + PG_ON_TABLE + chosen[i] + PG_TO]
  {
    var before := TableGrants(cmds, chosen[..i]);
    assert TableGrants(cmds, chosen[..i + 1]) == before + [PgStmt.GrantTable(cmds, chosen[i])];
    OneMoreText(before, PgStmt.GrantTable(cmds, chosen[i]));
  }

  lemma FixedTexts()
    ensures PgTexts(FIXED) == [PG_CREATE, PG_CONNECT, PG_USAGE]
  {
  }

  lemma OneMoreText(plan: seq<PgStmt>, last: PgStmt)
    ensures PgTexts(plan + [last]) == PgTexts(plan) + [PgText(last)]
  {
  }

  lemma TextsJoin(a: seq<PgStmt>, b: seq<PgStmt>)
    ensures PgTexts(a + b) == PgTexts(a) + PgTexts(b)
  {
  }

  method BuildClickhouse(scope: Scope, tables: seq<string>, commands: seq<string>, known: set<string>)
    returns (r: Result<(seq<string>, seq<string>), Problem>)
    ensures r.Ok? <==> CommandsAccepted(commands, CH_COMMANDS) && TablesAccepted(scope, tables, known)
    ensures r.Ok? ==> r.value.0 == ChTexts(ChPlan(Dedup(commands), Chosen(scope, tables, known)))
                      && r.value.1 == [CH_KILL, CH_DROP]
    ensures r.Err? ==>
              if !CommandsAccepted(commands, CH_COMMANDS) then CommandProblem(commands, CH_COMMANDS, r.error)
              else TableProblem(scope, tables, known, r.error)
  {
    var cmds := JoinCommands(commands, CH_COMMANDS);
    if cmds.Err? {
      return Err(cmds.error);
    }
    var names := ChooseTables(scope, tables, known);
    if names.Err? {
      return Err(names.error);
    }
    var chosen := names.value;
    ghost var list := Dedup(commands);
    var statements := [CH_CREATE];
    ChStarts(list);
    assert chosen[..0] == [];
    for i := 0 to |chosen|
      invariant statements == ChTexts(ChPlan(list, chosen[..i]))
    {
      statements := statements + [GRANT + cmds.value + CH_ON + chosen[i] + CH_TO];
      OneMoreChTable(list, chosen, i);
    }
    assert chosen[..|chosen|] == chosen;
    return Ok((statements, [CH_KILL, CH_DROP]));
  }

  lemma OneMoreChTable(cmds: seq<string>, chosen: seq<string>, i: nat)
    requires i < |chosen|
    ensures ChTexts(ChPlan(cmds, chosen[..i + 1]))
         == ChTexts(ChPlan(cmds, chosen[..i])) + [GRANT + Join(cmds) + CH_ON + chosen[i] + CH_TO]
  {
    var before, last := ChPlan(cmds, chosen[..i]), ChStmt.GrantTable(cmds, chosen[i]);
    assert ChPlan(cmds, chosen[..i + 1]) == before + [last];
    assert ChTexts(before + [last]) == ChTexts(before) + [ChText(last)];
  }

  lemma ChStarts(cmds: seq<string>)
    ensures ChTexts(ChPlan(cmds, [])) == [CH_CREATE]
  {
    assert ChPlan(cmds, []) == [CreateUser];
  }
}
