/** Identifiers, command lists and semicolons: the text the emitted SQL is made of, and how it is read. */
module SqlText {
  import opened Names
  import opened Wrappers

  // ---- text ----------------------------------------------------------------------------------

  predicate Letter(c: char) {
    'A' <= c <= 'Z' || 'a' <= c <= 'z' || c == '_'
  }

  predicate WordChar(c: char) {
    Letter(c) || '0' <= c <= '9'
  }

  /** The full match of `[A-Za-z_][A-Za-z0-9_]{0,62}`. */
  predicate IsIdentifier(s: string) {
    1 <= |s| <= 63 && Letter(s[0]) && forall i :: 0 <= i < |s| ==> WordChar(s[i])
  }

  /** By character code: letters and the underscore, and digits. */
  predicate LetterCode(n: int) {
    65 <= n <= 90 || 97 <= n <= 122 || n == 95
  }

  predicate DigitCode(n: int) {
    48 <= n <= 57
  }

  /** Identifiers are the texts of 1 to 63 such characters that do not begin with a digit. */
  lemma IdentifierIsExact(s: string)
    ensures IsIdentifier(s) <==>
              && 1 <= |s| <= 63 && !DigitCode(s[0] as int)
              && forall c :: c in s ==> LetterCode(c as int) || DigitCode(c as int)
  {
    if 1 <= |s| <= 63 {
      assert s[0] in s;
      if forall c :: c in s ==> LetterCode(c as int) || DigitCode(c as int) {
        forall i | 0 <= i < |s| ensures WordChar(s[i]) {
          assert s[i] in s;
        }
      }
    }
  }

  /** Nothing in an identifier can end a quoted name, start a placeholder or end a statement. */
  lemma IdentifierIsHarmless(s: string)
    requires IsIdentifier(s)
    ensures '"' !in s && '`' !in s && '\'' !in s && ';' !in s && '{' !in s && '}' !in s && ' ' !in s && '\n' !in s
  {
  }

  function Join(xs: seq<string>): string {
    if xs == [] then "" else if |xs| == 1 then xs[0] else xs[0] + ", " + Join(xs[1..])
  }

  function Strip(s: string, prefix: string): Option<string> {
    if StartsWith(s, prefix) then Some(s[|prefix|..]) else None
  }

  lemma StripPrefix(prefix: string, rest: string)
    ensures Strip(prefix + rest, prefix) == Some(rest)
  {
  }

  lemma StripInverse(s: string, prefix: string)
    requires Strip(s, prefix).Some?
    ensures s == prefix + Strip(s, prefix).value
  {
  }

  /** Length of the longest run of word characters at the front. */
  function WordLength(s: string): (n: nat)
    ensures n <= |s|
  {
    if s == "" || !WordChar(s[0]) then 0 else 1 + WordLength(s[1..])
  }

  lemma {:induction false} WordEnds(word: string, rest: string)
    requires (forall i :: 0 <= i < |word| ==> WordChar(word[i])) && rest != "" && !WordChar(rest[0])
    ensures WordLength(word + rest) == |word|
    decreases |word|
  {
    if word == "" {
      assert word + rest == rest;
    } else {
      assert (word + rest)[1..] == word[1..] + rest;
      WordEnds(word[1..], rest);
    }
  }

  /** An identifier, and what follows the longest word at the front. */
  function TakeIdentifier(s: string): Option<(string, string)> {
    var n := WordLength(s);
    if IsIdentifier(s[..n]) then Some((s[..n], s[n..])) else None
  }

  lemma TakesIdentifier(name: string, rest: string)
    requires IsIdentifier(name) && rest != "" && !WordChar(rest[0])
    ensures TakeIdentifier(name + rest) == Some((name, rest))
  {
    WordEnds(name, rest);
    assert (name + rest)[..|name|] == name && (name + rest)[|name|..] == rest;
  }

  // ---- command lists -------------------------------------------------------------------------

  /** Any two commands differ at a position both have. */
  ghost predicate PrefixFree(allowed: seq<string>) {
    forall i, j :: 0 <= i < j < |allowed| ==> Differ(allowed[i], allowed[j])
  }

  ghost predicate Differ(a: string, b: string) {
    exists k :: 0 <= k < |a| && k < |b| && a[k] != b[k]
  }

  function TakeCommand(s: string, allowed: seq<string>): Option<(string, string)>
    decreases |allowed|
  {
    if allowed == [] then None
    else if StartsWith(s, allowed[0]) then Some((allowed[0], s[|allowed[0]|..]))
    else TakeCommand(s, allowed[1..])
  }

  lemma {:induction false} TakesCommand(c: string, rest: string, allowed: seq<string>)
    requires PrefixFree(allowed) && c in allowed
    ensures TakeCommand(c + rest, allowed) == Some((c, rest))
    decreases |allowed|
  {
    if c == allowed[0] {
    } else {
      var j :| 0 < j < |allowed| && allowed[j] == c;
      var k :| 0 <= k < |allowed[0]| && k < |c| && allowed[0][k] != c[k];
      assert (c + rest)[k] == c[k];
      assert !StartsWith(c + rest, allowed[0]);
      assert c == allowed[1..][j - 1];
      assert forall i, l :: 0 <= i < l < |allowed[1..]| ==> allowed[1..][i] == allowed[i + 1] && allowed[1..][l] == allowed[l + 1];
      TakesCommand(c, rest, allowed[1..]);
    }
  }

  lemma {:induction false} TakeCommandInverse(s: string, allowed: seq<string>)
    requires TakeCommand(s, allowed).Some?
    ensures var (c, rest) := TakeCommand(s, allowed).value; c in allowed && s == c + rest
    decreases |allowed|
  {
    if !StartsWith(s, allowed[0]) {
      TakeCommandInverse(s, allowed[1..]);
    }
  }

  function TakeCommands(s: string, allowed: seq<string>): Option<(seq<string>, string)>
    requires forall c :: c in allowed ==> c != ""
    decreases |s|
  {
    var first := TakeCommand(s, allowed);
    if first.None? then None
    else
      TakeCommandShrinks(s, allowed);
      var (c, rest) := first.value;
      if !StartsWith(rest, ", ") then Some(([c], rest))
      else
        var more := TakeCommands(rest[2..], allowed);
        if more.None? then None else Some(([c] + more.value.0, more.value.1))
  }

  lemma TakeCommandShrinks(s: string, allowed: seq<string>)
    requires TakeCommand(s, allowed).Some? && forall c :: c in allowed ==> c != ""
    ensures |TakeCommand(s, allowed).value.1| < |s|
  {
    TakeCommandInverse(s, allowed);
  }

  lemma JoinSplits(cmds: seq<string>, rest: string)
    requires |cmds| > 1
    ensures Join(cmds) + rest == cmds[0] + (", " + (Join(cmds[1..]) + rest))
  {
  }

  lemma TakesOne(c: string, rest: string, allowed: seq<string>)
    requires PrefixFree(allowed) && (forall x :: x in allowed ==> x != "") && c in allowed
    requires !StartsWith(rest, ", ")
    ensures TakeCommands(c + rest, allowed) == Some(([c], rest))
  {
    TakesCommand(c, rest, allowed);
  }

  lemma TakesMore(c: string, tail: string, allowed: seq<string>)
    requires PrefixFree(allowed) && (forall x :: x in allowed ==> x != "") && c in allowed
    requires TakeCommands(tail, allowed).Some?
    ensures var more := TakeCommands(tail, allowed).value;
            TakeCommands(c + (", " + tail), allowed) == Some(([c] + more.0, more.1))
  {
    TakesCommand(c, ", " + tail, allowed);
    assert (", " + tail)[2..] == tail && StartsWith(", " + tail, ", ");
  }

  lemma {:induction false} TakesCommands(cmds: seq<string>, rest: string, allowed: seq<string>)
    requires PrefixFree(allowed) && (forall c :: c in allowed ==> c != "")
    requires cmds != [] && (forall c :: c in cmds ==> c in allowed) && !StartsWith(rest, ", ")
    ensures TakeCommands(Join(cmds) + rest, allowed) == Some((cmds, rest))
    decreases |cmds|
  {
    assert cmds[0] in allowed;
    if |cmds| == 1 {
      assert cmds == [cmds[0]];
      TakesOne(cmds[0], rest, allowed);
    } else {
      var more := cmds[1..];
      assert forall c :: c in more ==> c in cmds;
      TakesCommands(more, rest, allowed);
      TakesMore(cmds[0], Join(more) + rest, allowed);
      JoinSplits(cmds, rest);
      assert cmds == [cmds[0]] + more;
    }
  }

  lemma {:induction false} TakeCommandsInverse(s: string, allowed: seq<string>)
    requires (forall c :: c in allowed ==> c != "") && TakeCommands(s, allowed).Some?
    ensures var (cmds, rest) := TakeCommands(s, allowed).value;
            cmds != [] && (forall c :: c in cmds ==> c in allowed) && s == Join(cmds) + rest
    decreases |s|
  {
    var (c, rest) := TakeCommand(s, allowed).value;
    TakeCommandInverse(s, allowed);
    TakeCommandShrinks(s, allowed);
    if StartsWith(rest, ", ") {
      TakeCommandsInverse(rest[2..], allowed);
      var (more, last) := TakeCommands(rest[2..], allowed).value;
      assert rest == ", " + rest[2..];
      assert ([c] + more)[1..] == more;
      assert s == c + (", " + (Join(more) + last)) == Join([c] + more) + last;
    }
  }

  // ---- splitting on semicolons ---------------------------------------------------------------

  /** What lies between the semicolons; Vault runs each piece that is not blank. */
  function Pieces(s: string): (r: seq<string>)
    ensures |r| >= 1
  {
    if s == "" then [""]
    else
      var rest := Pieces(s[1..]);
      if s[0] == ';' then [""] + rest else [[s[0]] + rest[0]] + rest[1..]
  }

  predicate Blank(s: string) {
    forall i :: 0 <= i < |s| ==> s[i] == ' '
  }

  function Commands(s: string): seq<string> {
    NotBlank(Pieces(s))
  }

  function NotBlank(pieces: seq<string>): seq<string> {
    if pieces == [] then []
    else (if Blank(pieces[0]) then [] else [pieces[0]]) + NotBlank(pieces[1..])
  }

  /** Exactly one semicolon, at the very end. */
  predicate OneSemicolon(s: string) {
    |s| > 1 && s[|s| - 1] == ';' && ';' !in s[..|s| - 1] && s[0] != ' '
  }

  lemma {:induction false} PiecesOfOne(a: string)
    requires ';' !in a
    ensures Pieces(a + ";") == [a, ""]
    decreases |a|
  {
    if a == "" {
      assert a + ";" == ";" && ";"[1..] == "";
      assert Pieces("") == [""];
    } else {
      assert (a + ";")[1..] == a[1..] + ";";
      assert a[0] in a;
      PiecesOfOne(a[1..]);
      assert [a[0]] + a[1..] == a;
    }
  }

  /** Splitting such a statement yields the statement itself and nothing else. */
  lemma SplitsToItself(s: string)
    requires OneSemicolon(s)
    ensures Commands(s) == [s[..|s| - 1]]
  {
    var a := s[..|s| - 1];
    assert s == a + ";";
    PiecesOfOne(a);
    assert !Blank(a);
    assert [a, ""][1..] == [""] && [""][1..] == [];
    assert NotBlank([""]) == [];
  }
}
