/** What introspection hands the grant compiler, and why the compiler never trips over it. */
module Catalog {
  import opened Names
  import opened Wrappers
  import opened SqlText
  import opened Statements
  import opened Builder
  import opened Power

  type Row = (string, string)

  /** `_ok`: names that are not plain identifiers are dropped, the others keep their order. */
  function Plain(names: seq<string>): (r: seq<string>)
    ensures forall x :: x in r <==> x in names && IsIdentifier(x)
  {
    if names == [] then []
    else
      var last := |names| - 1;
      assert names == names[..last] + [names[last]];
      Plain(names[..last]) + if IsIdentifier(names[last]) then [names[last]] else []
  }

  /** Taking two lists together or apart makes no difference, so order and repetitions are as given. */
  lemma {:induction false} PlainJoins(a: seq<string>, b: seq<string>)
    ensures Plain(a + b) == Plain(a) + Plain(b)
    decreases |b|
  {
    if b == [] {
      assert a + b == a;
    } else {
      var last := |b| - 1;
      assert (a + b)[..|a + b| - 1] == a + b[..last];
      PlainJoins(a, b[..last]);
    }
  }

  /** Hence each plain name stands in the result as often as in the input, and after exactly the plain
    * names that stand before it there. */
  lemma PlainKeepsPlace(names: seq<string>, i: nat)
    requires i < |names| && IsIdentifier(names[i])
    ensures var before := Plain(names[..i]);
            |before| < |Plain(names)| && Plain(names)[..|before|] == before && Plain(names)[|before|] == names[i]
  {
    assert names[..i + 1][..i] == names[..i];
    assert names == names[..i + 1] + names[i + 1..];
    PlainJoins(names[..i + 1], names[i + 1..]);
  }

  /** The sequences of table `t` among (table, sequence) rows, in row order. */
  function OwnedIn(rows: seq<Row>, tables: seq<string>, t: string): (r: seq<string>)
    ensures forall s :: s in r <==> (t, s) in rows && t in tables && IsIdentifier(s)
  {
    if rows == [] then []
    else
      var last := |rows| - 1;
      var row := rows[last];
      assert rows == rows[..last] + [row];
      OwnedIn(rows[..last], tables, t)
      + if row.0 == t && t in tables && IsIdentifier(row.1) then [row.1] else []
  }

  lemma {:induction false} OwnedJoins(a: seq<Row>, b: seq<Row>, tables: seq<string>, t: string)
    ensures OwnedIn(a + b, tables, t) == OwnedIn(a, tables, t) + OwnedIn(b, tables, t)
    decreases |b|
  {
    if b == [] {
      assert a + b == a;
    } else {
      var last := |b| - 1;
      assert (a + b)[..|a + b| - 1] == a + b[..last];
      OwnedJoins(a, b[..last], tables, t);
    }
  }

  /** The same for the sequences of a table. */
  lemma OwnedKeepsPlace(rows: seq<Row>, tables: seq<string>, t: string, i: nat)
    requires i < |rows| && rows[i].0 == t && t in tables && IsIdentifier(rows[i].1)
    ensures var before, all := OwnedIn(rows[..i], tables, t), OwnedIn(rows, tables, t);
            |before| < |all| && all[..|before|] == before && all[|before|] == rows[i].1
  {
    assert rows[..i + 1][..i] == rows[..i];
    assert rows == rows[..i + 1] + rows[i + 1..];
    OwnedJoins(rows[..i + 1], rows[i + 1..], tables, t);
  }

  ghost predicate CatalogOf(sequences: map<string, seq<string>>, rows: seq<Row>, tables: seq<string>) {
    forall t :: Owned(sequences, t) == OwnedIn(rows, tables, t)
  }

  method PostgresCatalog(names: seq<string>, rows: seq<Row>)
    returns (tables: seq<string>, sequences: map<string, seq<string>>)
    ensures tables == Plain(names)
    ensures CatalogOf(sequences, rows, tables)
    ensures forall t :: t in sequences ==> t in tables && sequences[t] != []
  {
    tables := Plain(names);
    sequences := map[];
    for i := 0 to |rows|
      invariant CatalogOf(sequences, rows[..i], tables)
      invariant forall t :: t in sequences ==> t in tables && sequences[t] != []
    {
      var (table, name) := rows[i];
      assert rows[..i + 1][..i] == rows[..i];
      if table in tables && IsIdentifier(name) {
        sequences := sequences[table := Owned(sequences, table) + [name]];
      }
    }
    assert rows[..|rows|] == rows;
  }

  /** Over a catalog, no request fails on a catalog name: it is accepted if and only if its commands
    * are allowed and it asks for at least one table, all of them in the catalog. */
  lemma CatalogRequestIsAccepted(scope: Scope, tables: seq<string>, commands: seq<string>, names: seq<string>,
                                 rows: seq<Row>, sequences: map<string, seq<string>>)
    requires CatalogOf(sequences, rows, Plain(names))
    ensures var known := set t | t in Plain(names);
            PgAccepted(scope, tables, commands, known, sequences)
            <==> CommandsAccepted(commands, PG_COMMANDS)
                 && Wanted(scope, tables, known) != {} && Wanted(scope, tables, known) <= known
  {
    var known := set t | t in Plain(names);
    forall t, s | s in Owned(sequences, t) ensures IsIdentifier(s) {
      assert s in OwnedIn(rows, Plain(names), t);
    }
  }

  /** The rights a request asks for, in terms of the rows the database returned. */
  ghost predicate CatalogAsked(x: Right, commands: seq<string>, wanted: set<string>, rows: seq<Row>) {
    match x
    case Connect(database) => database == "appdb"
    case Usage(schema) => schema == "public"
    case OnTable(c, t) => c in commands && t in wanted
    case OnSequence(s) => "INSERT" in commands && IsIdentifier(s) && exists t :: t in wanted && (t, s) in rows
  }

  lemma SameAskedFromCatalog(x: Right, commands: seq<string>, wanted: set<string>, tables: seq<string>,
                             rows: seq<Row>, sequences: map<string, seq<string>>)
    requires CatalogOf(sequences, rows, tables) && forall t :: t in wanted ==> t in tables
    ensures PgAsked(x, commands, wanted, sequences) <==> CatalogAsked(x, commands, wanted, rows)
  {
    if x.OnSequence? {
      forall t | t in wanted
        ensures x.name in Owned(sequences, t) <==> (t, x.name) in rows && IsIdentifier(x.name)
      {
        assert Owned(sequences, t) == OwnedIn(rows, tables, t);
      }
    }
  }

  /** The power of an accepted request over a catalog: its commands on its tables, and the sequences
    * the database says those tables own if it may insert. */
  lemma CatalogPower(scope: Scope, tables: seq<string>, commands: seq<string>, names: seq<string>,
                     rows: seq<Row>, sequences: map<string, seq<string>>, known: set<string>)
    requires CatalogOf(sequences, rows, Plain(names)) && known == set t | t in Plain(names)
    requires PgAccepted(scope, tables, commands, known, sequences)
    ensures var texts := PgTexts(PgPlan(Dedup(commands), Chosen(scope, tables, known), sequences));
            var account := Execute(Missing, texts, PgReads);
            && account.Has?
            && forall x :: x in account.rights <==> CatalogAsked(x, commands, Wanted(scope, tables, known), rows)
  {
    PostgresPower(scope, tables, commands, known, sequences);
    forall x
      ensures PgAsked(x, commands, Wanted(scope, tables, known), sequences)
         <==> CatalogAsked(x, commands, Wanted(scope, tables, known), rows)
    {
      SameAskedFromCatalog(x, commands, Wanted(scope, tables, known), Plain(names), rows, sequences);
    }
  }
}
