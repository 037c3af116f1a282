/** What the emitted SQL makes the new account able to do: the texts are split, parsed and run. */
module Power {
  import opened Names
  import opened Wrappers
  import opened SqlText
  import opened Statements
  import opened Builder

  datatype Right = Connect(database: string) | Usage(schema: string)
                 | OnTable(command: string, table: string) | OnSequence(name: string)

  /** What one statement does to the account it names. */
  datatype Step = Create | Grant(rights: set<Right>)

  /** The account on the server; Refused when the server rejected a statement. */
  datatype Account = Missing | Has(rights: set<Right>) | Refused

  function Apply(a: Account, step: Step): Account {
    match step
    case Create => if a.Missing? then Has({}) else Refused
    case Grant(rights) => if a.Has? then Has(a.rights + rights) else Refused
  }

  function PgMeaning(s: PgStmt): Step {
    match s
    case CreateRole => Create
    case GrantConnect => Grant({Connect("appdb")})
    case GrantUsage => Grant({Usage("public")})
    case GrantTable(cmds, table) => Grant(set c | c in cmds :: OnTable(c, table))
    case GrantSequence(name) => Grant({OnSequence(name)})
  }

  function ChMeaning(s: ChStmt): Step {
    match s
    case CreateUser => Create
    case GrantTable(cmds, table) => Grant(set c | c in cmds :: OnTable(c, table))
  }

  /** How each server reads one statement; None is a syntax error. */
  function PgReads(text: string): Option<Step> {
    var s := PgParse(text);
    if s.Some? then Some(PgMeaning(s.value)) else None
  }

  function ChReads(text: string): Option<Step> {
    var s := ChParse(text);
    if s.Some? then Some(ChMeaning(s.value)) else None
  }

  /** Vault splits every stored text on semicolons and runs the pieces in turn. */
  function Execute(a: Account, texts: seq<string>, reading: string -> Option<Step>): Account
    decreases |texts|
  {
    if texts == [] then a
    else Execute(RunPieces(a, Commands(texts[0]), reading), texts[1..], reading)
  }

  function RunPieces(a: Account, commands: seq<string>, reading: string -> Option<Step>): Account
    decreases |commands|
  {
    if commands == [] then a
    else
      var step := reading(commands[0] + ";");
      RunPieces(if step.Some? then Apply(a, step.value) else Refused, commands[1..], reading)
  }

  function ApplyAll(a: Account, steps: seq<Step>): Account
    decreases |steps|
  {
    if steps == [] then a else ApplyAll(Apply(a, steps[0]), steps[1..])
  }

  lemma {:induction false} ExecutesEachText(a: Account, texts: seq<string>, steps: seq<Step>, reading: string -> Option<Step>)
    requires |texts| == |steps|
    requires forall i :: 0 <= i < |texts| ==> OneSemicolon(texts[i]) && reading(texts[i]) == Some(steps[i])
    ensures Execute(a, texts, reading) == ApplyAll(a, steps)
    decreases |texts|
  {
    if texts != [] {
      var text := texts[0];
      SplitsToItself(text);
      var piece := text[..|text| - 1];
      assert piece + ";" == text;
      assert [piece][1..] == [];
      assert RunPieces(a, [piece], reading) == Apply(a, steps[0]);
      ExecutesEachText(Apply(a, steps[0]), texts[1..], steps[1..], reading);
    }
  }

  ghost predicate AllGrants(steps: seq<Step>) {
    forall i :: 0 <= i < |steps| ==> steps[i].Grant?
  }

  lemma {:induction false} GrantsAddUp(rights: set<Right>, steps: seq<Step>)
    requires AllGrants(steps)
    ensures ApplyAll(Has(rights), steps).Has?
    ensures forall x :: x in ApplyAll(Has(rights), steps).rights <==>
                        x in rights || exists i :: 0 <= i < |steps| && x in steps[i].rights
    decreases |steps|
  {
    if steps != [] {
      GrantsAddUp(rights + steps[0].rights, steps[1..]);
      var rest := steps[1..];
      forall x
        ensures (exists i :: 0 <= i < |steps| && x in steps[i].rights)
           <==> x in steps[0].rights || exists i :: 0 <= i < |rest| && x in rest[i].rights
      {
        if i :| 0 <= i < |steps| && x in steps[i].rights && i > 0 {
          assert x in rest[i - 1].rights;
        }
        if i :| 0 <= i < |rest| && x in rest[i].rights {
          assert x in steps[i + 1].rights;
        }
      }
    }
  }

  ghost predicate Grants(steps: seq<Step>, x: Right) {
    exists i :: 0 <= i < |steps| && steps[i].Grant? && x in steps[i].rights
  }

  /** Statements that create the account once and then only grant leave it with all they grant. */
  lemma CreatesAndGrants(texts: seq<string>, steps: seq<Step>, reading: string -> Option<Step>)
    requires |texts| == |steps| > 0
    requires forall i :: 0 <= i < |texts| ==> OneSemicolon(texts[i]) && reading(texts[i]) == Some(steps[i])
    requires forall i :: 0 <= i < |steps| ==> (steps[i].Create? <==> i == 0)
    ensures var account := Execute(Missing, texts, reading);
            account.Has? && forall x :: x in account.rights <==> Grants(steps, x)
  {
    ExecutesEachText(Missing, texts, steps, reading);
    var grants := steps[1..];
    assert ApplyAll(Missing, steps) == ApplyAll(Has({}), grants);
    GrantsAddUp({}, grants);
    forall x ensures (exists i :: 0 <= i < |grants| && x in grants[i].rights) <==> Grants(steps, x) {
      if i :| 0 <= i < |grants| && x in grants[i].rights {
        assert steps[i + 1] == grants[i];
      }
      if i :| 0 <= i < |steps| && steps[i].Grant? && x in steps[i].rights {
        assert steps[i] == grants[i - 1];
      }
    }
  }

  // ---- PostgreSQL ------------------------------------------------------------------------------

  /** The rights a request asks for, in its own terms. */
  ghost predicate PgAsked(x: Right, commands: seq<string>, wanted: set<string>, sequences: map<string, seq<string>>) {
    match x
    case Connect(database) => database == "appdb"
    case Usage(schema) => schema == "public"
    case OnTable(c, t) => c in commands && t in wanted
    case OnSequence(s) => "INSERT" in commands && exists t :: t in wanted && s in Owned(sequences, t)
  }

  ghost predicate PgAccepted(scope: Scope, tables: seq<string>, commands: seq<string>, known: set<string>,
                             sequences: map<string, seq<string>>) {
    && CommandsAccepted(commands, PG_COMMANDS) && TablesAccepted(scope, tables, known)
    && ("INSERT" in commands ==> SequencesAccepted(Chosen(scope, tables, known), sequences))
  }

  /** Well-formed statements, of which the first and no other creates the account. */
  ghost predicate PgGoodPlan(plan: seq<PgStmt>) {
    forall i :: 0 <= i < |plan| ==> PgGood(plan[i]) && (plan[i].CreateRole? <==> i == 0)
  }

  lemma PgPlanIsGood(scope: Scope, tables: seq<string>, commands: seq<string>, known: set<string>,
                     sequences: map<string, seq<string>>)
    requires PgAccepted(scope, tables, commands, known, sequences)
    ensures PgGoodPlan(PgPlan(Dedup(commands), Chosen(scope, tables, known), sequences))
  {
    var cmds, chosen := Dedup(commands), Chosen(scope, tables, known);
    forall x | x in TableGrants(cmds, chosen) ensures PgGood(x) && x.GrantTable? {
      assert x.table in chosen;
    }
    forall x | "INSERT" in cmds && x in SequenceGrants(chosen, sequences) ensures PgGood(x) && x.GrantSequence? {
    }
  }

  function Meanings(plan: seq<PgStmt>): (r: seq<Step>)
    ensures |r| == |plan| && forall i :: 0 <= i < |plan| ==> r[i] == PgMeaning(plan[i])
  {
    seq(|plan|, i requires 0 <= i < |plan| => PgMeaning(plan[i]))
  }

  lemma PgPlanRuns(plan: seq<PgStmt>)
    requires plan != [] && PgGoodPlan(plan)
    ensures var account := Execute(Missing, PgTexts(plan), PgReads);
            account.Has? && forall x :: x in account.rights <==> Grants(Meanings(plan), x)
  {
    forall i | 0 <= i < |plan|
      ensures OneSemicolon(PgTexts(plan)[i]) && PgReads(PgTexts(plan)[i]) == Some(PgMeaning(plan[i]))
    {
      PgOneSemicolon(plan[i]);
      PgRoundTrip(plan[i]);
    }
    CreatesAndGrants(PgTexts(plan), Meanings(plan), PgReads);
  }

  /** An accepted request yields exactly the rights it asked for, whatever the server is given to
    * split and parse. */
  lemma PostgresPower(scope: Scope, tables: seq<string>, commands: seq<string>, known: set<string>,
                      sequences: map<string, seq<string>>)
    requires PgAccepted(scope, tables, commands, known, sequences)
    ensures var texts := PgTexts(PgPlan(Dedup(commands), Chosen(scope, tables, known), sequences));
            var account := Execute(Missing, texts, PgReads);
            && account.Has?
            && forall x :: x in account.rights <==> PgAsked(x, commands, Wanted(scope, tables, known), sequences)
  {
    var cmds, chosen := Dedup(commands), Chosen(scope, tables, known);
    var plan := PgPlan(cmds, chosen, sequences);
    PgPlanIsGood(scope, tables, commands, known, sequences);
    PgPlanRuns(plan);
    forall x ensures Grants(Meanings(plan), x) <==> PgAsked(x, commands, Wanted(scope, tables, known), sequences) {
      PlanGrantsTheAsked(cmds, chosen, sequences, x);
      SameAsked(scope, tables, commands, known, sequences, x);
    }
  }

  lemma SameAsked(scope: Scope, tables: seq<string>, commands: seq<string>, known: set<string>,
                  sequences: map<string, seq<string>>, x: Right)
    ensures PgAsked(x, commands, Wanted(scope, tables, known), sequences)
       <==> PgAsked(x, Dedup(commands), (set t | t in Chosen(scope, tables, known)), sequences)
  {
  }

  lemma PlanGrantsTheAsked(cmds: seq<string>, chosen: seq<string>, sequences: map<string, seq<string>>, x: Right)
    ensures Grants(Meanings(PgPlan(cmds, chosen, sequences)), x)
       <==> PgAsked(x, cmds, (set t | t in chosen), sequences)
  {
    var plan := PgPlan(cmds, chosen, sequences);
    var steps := Meanings(plan);
    if i :| 0 <= i < |steps| && steps[i].Grant? && x in steps[i].rights {
      PlanGrantsOnlyAsked(cmds, chosen, sequences, i, x);
    }
    if PgAsked(x, cmds, (set t | t in chosen), sequences) {
      assert plan[1] == GrantConnect && plan[2] == GrantUsage;
      match x
      case Connect(_) => GrantedBy(plan, 1, x);
      case Usage(_) => GrantedBy(plan, 2, x);
      case OnTable(c, t) => TableIsGranted(cmds, chosen, sequences, c, t);
      case OnSequence(s) => SequenceIsGranted(cmds, chosen, sequences, s);
    }
  }

  lemma PlanGrantsOnlyAsked(cmds: seq<string>, chosen: seq<string>, sequences: map<string, seq<string>>, i: nat, x: Right)
    requires 0 < i < |PgPlan(cmds, chosen, sequences)|
    requires PgMeaning(PgPlan(cmds, chosen, sequences)[i]).Grant?
    requires x in PgMeaning(PgPlan(cmds, chosen, sequences)[i]).rights
    ensures PgAsked(x, cmds, (set t | t in chosen), sequences)
  {
    PlanHolds(cmds, chosen, sequences, i);
  }

  /** What stands where in a plan. */
  lemma PlanHolds(cmds: seq<string>, chosen: seq<string>, sequences: map<string, seq<string>>, i: nat)
    requires i < |PgPlan(cmds, chosen, sequences)|
    ensures match PgPlan(cmds, chosen, sequences)[i]
            case CreateRole => i == 0
            case GrantConnect => i == 1
            case GrantUsage => i == 2
            case GrantTable(c, t) => c == cmds && t in chosen
            case GrantSequence(s) => "INSERT" in cmds && exists t :: t in chosen && s in Owned(sequences, t)
  {
    var s := PgPlan(cmds, chosen, sequences)[i];
    if i >= 3 + |chosen| {
      assert s in SequenceGrants(chosen, sequences);
    } else if i >= 3 {
      assert s == TableGrants(cmds, chosen)[i - 3];
    }
  }

  lemma TableIsGranted(cmds: seq<string>, chosen: seq<string>, sequences: map<string, seq<string>>, c: string, t: string)
    requires c in cmds && t in chosen
    ensures Grants(Meanings(PgPlan(cmds, chosen, sequences)), OnTable(c, t))
  {
    var k :| 0 <= k < |chosen| && chosen[k] == t;
    assert TableGrants(cmds, chosen)[k] == PgStmt.GrantTable(cmds, t);
    GrantedBy(PgPlan(cmds, chosen, sequences), 3 + k, OnTable(c, t));
  }

  lemma SequenceIsGranted(cmds: seq<string>, chosen: seq<string>, sequences: map<string, seq<string>>, s: string)
    requires "INSERT" in cmds && exists t :: t in chosen && s in Owned(sequences, t)
    ensures Grants(Meanings(PgPlan(cmds, chosen, sequences)), OnSequence(s))
  {
    var before, owned := FIXED + TableGrants(cmds, chosen), SequenceGrants(chosen, sequences);
    assert GrantSequence(s) in owned;
    assert PgPlan(cmds, chosen, sequences) == before + owned;
    GrantedAfter(before, owned, GrantSequence(s), OnSequence(s));
  }

  lemma GrantedAfter(before: seq<PgStmt>, after: seq<PgStmt>, stmt: PgStmt, x: Right)
    requires stmt in after && PgMeaning(stmt).Grant? && x in PgMeaning(stmt).rights
    ensures Grants(Meanings(before + after), x)
  {
    var k :| 0 <= k < |after| && after[k] == stmt;
    assert (before + after)[|before| + k] == stmt;
    GrantedBy(before + after, |before| + k, x);
  }

  lemma GrantedBy(plan: seq<PgStmt>, i: nat, x: Right)
    requires i < |plan| && PgMeaning(plan[i]).Grant? && x in PgMeaning(plan[i]).rights
    ensures Grants(Meanings(plan), x)
  {
    assert Meanings(plan)[i] == PgMeaning(plan[i]);
  }

  /** A text that reads back as its statement, and that Vault's splitting leaves whole. */
  ghost predicate PgReadsBack(text: string, s: PgStmt) {
    text != "" && PgParse(text) == Some(s) && Commands(text) == [text[..|text| - 1]]
  }

  lemma PgTextReadsBack(s: PgStmt)
    requires PgGood(s)
    ensures PgReadsBack(PgText(s), s)
  {
    PgRoundTrip(s);
    PgOneSemicolon(s);
    SplitsToItself(PgText(s));
  }

  /** The texts a PostgreSQL request stores read back as the plan, statement by statement. */
  lemma PgTextsReadBack(scope: Scope, tables: seq<string>, commands: seq<string>, known: set<string>,
                        sequences: map<string, seq<string>>)
    requires PgAccepted(scope, tables, commands, known, sequences)
    ensures var plan := PgPlan(Dedup(commands), Chosen(scope, tables, known), sequences);
            forall i :: 0 <= i < |plan| ==> PgReadsBack(PgTexts(plan)[i], plan[i])
  {
    var plan := PgPlan(Dedup(commands), Chosen(scope, tables, known), sequences);
    PgPlanIsGood(scope, tables, commands, known, sequences);
    PgPlanReadsBack(plan);
  }

  lemma PgPlanReadsBack(plan: seq<PgStmt>)
    requires PgGoodPlan(plan)
    ensures forall i :: 0 <= i < |plan| ==> PgReadsBack(PgTexts(plan)[i], plan[i])
  {
    forall i | 0 <= i < |plan| ensures PgReadsBack(PgTexts(plan)[i], plan[i]) {
      PgTextReadsBack(plan[i]);
    }
  }

  // ---- ClickHouse ------------------------------------------------------------------------------

  /** Well-formed statements, of which the first and no other creates the account. */
  ghost predicate ChGoodPlan(plan: seq<ChStmt>) {
    forall i :: 0 <= i < |plan| ==> ChGood(plan[i]) && (plan[i].CreateUser? <==> i == 0)
  }

  lemma ChPlanIsGood(scope: Scope, tables: seq<string>, commands: seq<string>, known: set<string>)
    requires CommandsAccepted(commands, CH_COMMANDS) && TablesAccepted(scope, tables, known)
    ensures ChGoodPlan(ChPlan(Dedup(commands), Chosen(scope, tables, known)))
  {
    var cmds, chosen := Dedup(commands), Chosen(scope, tables, known);
    var plan := ChPlan(cmds, chosen);
    forall i | 0 <= i < |plan| ensures ChGood(plan[i]) && (plan[i].CreateUser? <==> i == 0) {
      assert i > 0 ==> plan[i] == ChStmt.GrantTable(cmds, chosen[i - 1]) && chosen[i - 1] in chosen;
    }
  }

  lemma ChPlanRuns(plan: seq<ChStmt>)
    requires plan != [] && ChGoodPlan(plan)
    ensures var account := Execute(Missing, ChTexts(plan), ChReads);
            account.Has? && forall x :: x in account.rights <==> Grants(ChMeanings(plan), x)
  {
    forall i | 0 <= i < |plan|
      ensures OneSemicolon(ChTexts(plan)[i]) && ChReads(ChTexts(plan)[i]) == Some(ChMeaning(plan[i]))
    {
      ChOneSemicolon(plan[i]);
      ChRoundTrip(plan[i]);
    }
    CreatesAndGrants(ChTexts(plan), ChMeanings(plan), ChReads);
  }

  lemma ClickhousePower(scope: Scope, tables: seq<string>, commands: seq<string>, known: set<string>)
    requires CommandsAccepted(commands, CH_COMMANDS) && TablesAccepted(scope, tables, known)
    ensures var texts := ChTexts(ChPlan(Dedup(commands), Chosen(scope, tables, known)));
            var account := Execute(Missing, texts, ChReads);
            && account.Has?
            && forall x :: x in account.rights <==>
                 x.OnTable? && x.command in commands && x.table in Wanted(scope, tables, known)
  {
    var cmds, chosen := Dedup(commands), Chosen(scope, tables, known);
    var plan := ChPlan(cmds, chosen);
    ChPlanIsGood(scope, tables, commands, known);
    ChPlanRuns(plan);
    forall x
      ensures Grants(ChMeanings(plan), x)
         <==> x.OnTable? && x.command in commands && x.table in Wanted(scope, tables, known)
    {
      ChPlanGrants(cmds, chosen, x);
    }
  }

  function ChMeanings(plan: seq<ChStmt>): (r: seq<Step>)
    ensures |r| == |plan| && forall i :: 0 <= i < |plan| ==> r[i] == ChMeaning(plan[i])
  {
    seq(|plan|, i requires 0 <= i < |plan| => ChMeaning(plan[i]))
  }

  lemma ChPlanGrants(cmds: seq<string>, chosen: seq<string>, x: Right)
    ensures Grants(ChMeanings(ChPlan(cmds, chosen)), x) <==> x.OnTable? && x.command in cmds && x.table in chosen
  {
    var plan := ChPlan(cmds, chosen);
    var steps := ChMeanings(plan);
    assert forall i :: 0 < i < |plan| ==> plan[i] == ChStmt.GrantTable(cmds, chosen[i - 1]);
    if x.OnTable? && x.command in cmds && x.table in chosen {
      var i :| 0 <= i < |chosen| && chosen[i] == x.table;
      assert x in steps[i + 1].rights;
    }
  }

  ghost predicate ChReadsBack(text: string, s: ChStmt) {
    text != "" && ChParse(text) == Some(s) && Commands(text) == [text[..|text| - 1]]
  }

  lemma ChTextReadsBack(s: ChStmt)
    requires ChGood(s)
    ensures ChReadsBack(ChText(s), s)
  {
    ChRoundTrip(s);
    ChOneSemicolon(s);
    SplitsToItself(ChText(s));
  }

  /** And so do the texts a ClickHouse request stores. */
  lemma ChTextsReadBack(scope: Scope, tables: seq<string>, commands: seq<string>, known: set<string>)
    requires CommandsAccepted(commands, CH_COMMANDS) && TablesAccepted(scope, tables, known)
    ensures var plan := ChPlan(Dedup(commands), Chosen(scope, tables, known));
            forall i :: 0 <= i < |plan| ==> ChReadsBack(ChTexts(plan)[i], plan[i])
  {
    ChPlanIsGood(scope, tables, commands, known);
    ChPlanReadsBack(ChPlan(Dedup(commands), Chosen(scope, tables, known)));
  }

  lemma ChPlanReadsBack(plan: seq<ChStmt>)
    requires ChGoodPlan(plan)
    ensures forall i :: 0 <= i < |plan| ==> ChReadsBack(ChTexts(plan)[i], plan[i])
  {
    forall i | 0 <= i < |plan| ensures ChReadsBack(ChTexts(plan)[i], plan[i]) {
      ChTextReadsBack(plan[i]);
    }
  }

  // ---- identifiers inside the text -------------------------------------------------------------

  /** A table name adds no quote, backtick, brace or semicolon to the text it is put in. */
  lemma IdentifierAddsNothing(before: string, name: string, after: string, x: char)
    requires IsIdentifier(name) && x in {'"', '`', '\'', '{', '}', ';'}
    ensures multiset(before + name + after)[x] == multiset(before + after)[x]
  {
    IdentifierIsHarmless(name);
    assert multiset(before + name + after) == multiset(before) + multiset(name) + multiset(after);
    assert multiset(before + after) == multiset(before) + multiset(after);
    assert x !in multiset(name);
  }
}
