/** `find_token_accessors`: recovery of a token whose create response was lost, by scanning every
  * live token of Vault for the display name. */
module TokenScan {
  import opened Names
  import opened Wrappers
  import opened Protocol

  const MAX_ACCESSOR_SCAN := 20000

  /** What one accessor lookup answers. `InvalidAccessor` is the one error that says the token is
    * gone; any other error says nothing about the token. */
  datatype Lookup = Info(display: string) | InvalidAccessor | Unclear

  datatype ScanError = TooMany(tokens: nat) | LookupFailed(acc: Accessor)

  predicate Hit(answer: Lookup, tag: string) {
    answer.Info? && DisplayMatches(answer.display, tag)
  }

  /** The accessors whose lookup shows the wanted name, in listing order. */
  function Matching(keys: seq<Accessor>, answers: seq<Lookup>, tag: string): (found: seq<Accessor>)
    requires |keys| == |answers|
    ensures forall a :: a in found <==>
              exists i :: 0 <= i < |keys| && keys[i] == a && Hit(answers[i], tag)
  {
    if keys == [] then []
    else
      var rest := Matching(keys[..|keys| - 1], answers[..|keys| - 1], tag);
      var last := answers[|keys| - 1];
      if Hit(last, tag) then rest + [keys[|keys| - 1]] else rest
  }

  /** `answers[i]` is what Vault says about `keys[i]` when its turn comes. */
  method FindTokenAccessors(tag: string, keys: seq<Accessor>, answers: seq<Lookup>)
      returns (r: Result<seq<Accessor>, ScanError>)
    requires |keys| == |answers|
    ensures r.Ok? <==> |keys| <= MAX_ACCESSOR_SCAN && Unclear !in answers
    ensures r.Ok? ==> r.value == Matching(keys, answers, tag)
    ensures |keys| > MAX_ACCESSOR_SCAN ==> r == Err(TooMany(|keys|))
    ensures r.Err? && r.error.LookupFailed? ==>
              exists i :: 0 <= i < |keys| && r.error.acc == keys[i] && answers[i].Unclear? && Unclear !in answers[..i]
  {
    if |keys| > MAX_ACCESSOR_SCAN {
      return Err(TooMany(|keys|));
    }
    var found := [];
    for i := 0 to |keys|
      invariant Unclear !in answers[..i]
      invariant found == Matching(keys[..i], answers[..i], tag)
    {
      assert keys[..i + 1][..i] == keys[..i] && answers[..i + 1][..i] == answers[..i];
      match answers[i]
      case InvalidAccessor =>
      case Unclear => return Err(LookupFailed(keys[i]));
      case Info(display) =>
        if DisplayMatches(display, tag) {
          found := found + [keys[i]];
        }
    }
    assert keys[..|keys|] == keys && answers[..|keys|] == answers;
    return Ok(found);
  }

  /** A token as Vault holds it: one the portal made under a label, or somebody else's. */
  datatype VaultToken = Ours(tag: string) | Foreign(display: string)

  function Stored(token: VaultToken): string {
    match token
    case Ours(tag) => DisplayName(tag)
    case Foreign(display) => display
  }

  /** The portal's tokens carry its labels; anybody else's carry no display name the scan would take for
    * a grant's. */
  ghost predicate Plausible(token: VaultToken) {
    match token
    case Ours(tag) => IsGrantId(tag) || exists g :: IsGrantId(g) && IsHelperLabel(tag, g)
    case Foreign(display) => forall g :: IsGrantId(g) ==> !DisplayMatches(display, g)
  }

  /** The listing covers the tokens of `vault`, each lookup tells the truth about its token, and a
    * token reported gone is not in `still`, the tokens alive after the scan. */
  ghost predicate Truthful(vault: map<Accessor, VaultToken>, still: set<Accessor>, keys: seq<Accessor>, answers: seq<Lookup>) {
    && |keys| == |answers|
    && (forall a :: a in vault <==> a in keys)
    && (forall i :: 0 <= i < |keys| ==>
          match answers[i]
          case Info(display) => display == Stored(vault[keys[i]])
          case InvalidAccessor => keys[i] !in still
          case Unclear => true)
  }

  lemma OnlyOwnTokenMatches(token: VaultToken, g: string)
    requires Plausible(token) && IsGrantId(g)
    ensures DisplayMatches(Stored(token), g) <==> token == Ours(g)
  {
    GrantIdIsPortalLabel(g);
    match token
    case Ours(tag) =>
      if IsGrantId(tag) {
        GrantIdIsPortalLabel(tag);
      } else {
        var h :| IsGrantId(h) && IsHelperLabel(tag, h);
        HelperLabelIsPortalLabel(h, tag);
      }
      DisplayMatchIsLabel(tag, g);
    case Foreign(_) =>
  }

  lemma FoundWhenAlive(vault: map<Accessor, VaultToken>, still: set<Accessor>, keys: seq<Accessor>, answers: seq<Lookup>, g: string, a: Accessor)
    requires Truthful(vault, still, keys, answers) && Unclear !in answers
    requires a in vault && a in still && DisplayMatches(Stored(vault[a]), g)
    ensures a in Matching(keys, answers, g)
  {
    var i :| 0 <= i < |keys| && keys[i] == a;
    assert answers[i] in answers;
    assert Hit(answers[i], g);
  }

  /** A normal return names every token of the grant that is still alive, and nothing else: no token
    * of another grant, of the grant's own helper runs, or of anybody else. */
  lemma ScanIsExact(vault: map<Accessor, VaultToken>, still: set<Accessor>, keys: seq<Accessor>, answers: seq<Lookup>, g: string)
    requires IsGrantId(g) && (forall a :: a in vault ==> Plausible(vault[a]))
    requires Truthful(vault, still, keys, answers) && Unclear !in answers
    ensures forall a :: a in vault && a in still && vault[a] == Ours(g) ==> a in Matching(keys, answers, g)
    ensures forall a :: a in Matching(keys, answers, g) ==> a in vault && vault[a] == Ours(g)
  {
    forall a | a in vault ensures DisplayMatches(Stored(vault[a]), g) <==> vault[a] == Ours(g) {
      OnlyOwnTokenMatches(vault[a], g);
    }
    forall a | a in vault && a in still && vault[a] == Ours(g) ensures a in Matching(keys, answers, g) {
      FoundWhenAlive(vault, still, keys, answers, g, a);
    }
    forall a | a in Matching(keys, answers, g) ensures a in vault && vault[a] == Ours(g) {
      var i :| 0 <= i < |keys| && keys[i] == a && Hit(answers[i], g);
      assert keys[i] in keys;
    }
  }

  /** The protocol's one-event scan is what the loop computes when nothing expires meanwhile. */
  lemma ScanIsProtocolScan(w: World, g: GrantId, keys: seq<Accessor>, answers: seq<Lookup>)
    requires |keys| == |answers| && w.tokens <= w.tokenLog.Keys
    requires forall a :: a in keys <==> a in w.tokens
    requires forall i :: 0 <= i < |keys| ==> answers[i] == Info(DisplayName(w.tokenLog[keys[i]].tag))
    ensures (set a | a in Matching(keys, answers, g)) == Scanned(w, g)
  {
    forall a ensures a in Matching(keys, answers, g) <==> a in Scanned(w, g) {
      if a in Scanned(w, g) {
        var i :| 0 <= i < |keys| && keys[i] == a;
        assert Hit(answers[i], g);
      }
    }
  }
}
