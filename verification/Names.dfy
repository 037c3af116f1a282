/** The names that tie resources in four places to one grant: grant ids, database accounts,
  * helper labels and Vault display names, with the matching rules the portal applies to them. */
module Names {

  predicate HexDigit(c: char) {
    '0' <= c <= '9' || 'a' <= c <= 'f'
  }

  predicate LowerAlnum(c: char) {
    '0' <= c <= '9' || 'a' <= c <= 'z'
  }

  /** `vdba_` and ten lower-case hex digits: what `new_grant_id` draws. */
  predicate IsGrantId(s: string) {
    && |s| == 15
    && s[..5] == "vdba_"
    && forall i :: 5 <= i < 15 ==> HexDigit(s[i])
  }

  /** What Vault's `{{ random 6 | lowercase }}` yields. */
  predicate IsSuffix(s: string) {
    |s| == 6 && forall i :: 0 <= i < 6 ==> LowerAlnum(s[i])
  }

  /** The full match of `vdba_[0-9a-f]{10}_[a-z0-9]{6}`, which guards every maintenance statement. */
  predicate ValidAccount(s: string) {
    && |s| == 22
    && s[..5] == "vdba_"
    && (forall i :: 5 <= i < 15 ==> HexDigit(s[i]))
    && s[15] == '_'
    && forall i :: 16 <= i < 22 ==> LowerAlnum(s[i])
  }

  /** Vault's username template: role name, underscore, random part. */
  function Username(role: string, random: string): string {
    role + "_" + random
  }

  predicate StartsWith(s: string, prefix: string) {
    |prefix| <= |s| && s[..|prefix|] == prefix
  }

  /** The tag of a one-shot helper run of grant `g`: `<g>_h` and four hex digits. */
  predicate IsHelperLabel(s: string, g: string) {
    && |s| == |g| + 6
    && s[..|g|] == g
    && s[|g|..|g| + 2] == "_h"
    && forall i :: |g| + 2 <= i < |g| + 6 ==> HexDigit(s[i])
  }

  /** The database's `starts_with(name, g || '_')` finds exactly the accounts of `g`. */
  lemma PrefixIsOwnership(g: string, h: string, random: string)
    requires IsGrantId(g) && IsGrantId(h)
    ensures StartsWith(Username(h, random), g + "_") <==> g == h
  {
    var name := Username(h, random);
    assert name[..15] == h;
    assert name[..16] == h + "_";
    if StartsWith(name, g + "_") {
      assert name[..16][..15] == (g + "_")[..15];
      assert (g + "_")[..15] == g;
    }
  }

  /** The guard accepts exactly the accounts Vault creates for grant roles. */
  lemma ValidAccountIsUsername(name: string)
    ensures ValidAccount(name) <==>
            |name| == 22 && IsGrantId(name[..15]) && IsSuffix(name[16..])
            && name == Username(name[..15], name[16..])
  {
    if |name| == 22 {
      var g, random := name[..15], name[16..];
      assert g[..5] == name[..5];
      assert forall i :: 5 <= i < 15 ==> g[i] == name[i];
      assert forall i :: 0 <= i < 6 ==> random[i] == name[16 + i];
      if ValidAccount(name) {
        assert name == Username(g, random);
      }
      if IsGrantId(g) && IsSuffix(random) && name == Username(g, random) {
        assert name[15] == '_';
        forall i | 16 <= i < 22 ensures LowerAlnum(name[i]) {
          assert name[i] == random[i - 16];
        }
      }
    }
  }

  lemma UsernameIsValid(g: string, random: string)
    requires IsGrantId(g) && IsSuffix(random)
    ensures ValidAccount(Username(g, random))
  {
    var name := Username(g, random);
    assert name[..15] == g && name[16..] == random;
    ValidAccountIsUsername(name);
  }

  /** An account Vault would name after a helper role carries the grant's prefix, so the search
    * would find it, and the guard would refuse it: such an account would block teardown. The
    * helper's statements create no account. */
  lemma HelperUsernameIsFoundButRefused(g: string, tag: string, random: string)
    requires IsGrantId(g) && IsHelperLabel(tag, g)
    ensures StartsWith(Username(tag, random), g + "_")
    ensures !ValidAccount(Username(tag, random))
  {
    var name := Username(tag, random);
    assert name[..15] == tag[..15] == g;
    assert name[15] == tag[15] == tag[15..17][0] == '_';
    assert name[..16] == g + "_";
    if |random| == 0 {
      assert name[21] == '_';
    }
  }

  /** Vault rewrites `_` to `-` in display names. */
  function Rewrite(s: string): (r: string)
    ensures |r| == |s|
    ensures forall i :: 0 <= i < |s| ==> r[i] == if s[i] == '_' then '-' else s[i]
  {
    if s == "" then "" else [if s[0] == '_' then '-' else s[0]] + Rewrite(s[1..])
  }

  /** What Vault stores for a token created with display name `tag`. */
  function DisplayName(tag: string): string {
    "token-" + Rewrite(tag)
  }

  /** The test of the token scan, with the two fallbacks the code also accepts. */
  predicate DisplayMatches(display: string, tag: string) {
    display == DisplayName(tag) || display == "token-" + tag || display == tag
  }

  /** Labels of grant and helper tokens: they hold no dash, hold an underscore and do not start
    * like a stored display name. */
  predicate PortalLabel(s: string) {
    '-' !in s && '_' in s && |s| > 0 && s[0] == 'v'
  }

  lemma GrantIdIsPortalLabel(g: string)
    requires IsGrantId(g)
    ensures PortalLabel(g)
  {
    assert g[0] == g[..5][0] && g[4] == g[..5][4];
    forall i | 0 <= i < |g| ensures g[i] != '-' {
      if i < 5 {
        assert g[i] == g[..5][i];
      }
    }
  }

  lemma HelperLabelIsPortalLabel(g: string, tag: string)
    requires IsGrantId(g) && IsHelperLabel(tag, g)
    ensures PortalLabel(tag) && tag != g
  {
    GrantIdIsPortalLabel(g);
    assert tag[0] == tag[..15][0] && tag[4] == tag[..15][4];
    assert g[4] == g[..5][4];
    forall i | 0 <= i < |tag| ensures tag[i] != '-' {
      if i < 15 {
        assert tag[i] == tag[..15][i] == g[i];
      } else if i < 17 {
        assert tag[i] == tag[15..17][i - 15];
      }
    }
  }

  lemma RewriteInjective(a: string, b: string)
    requires '-' !in a && '-' !in b
    requires Rewrite(a) == Rewrite(b)
    ensures a == b
  {
    assert |a| == |Rewrite(a)| == |b|;
    forall i | 0 <= i < |a| ensures a[i] == b[i] {
      assert a[i] in a && b[i] in b;
      assert Rewrite(a)[i] == Rewrite(b)[i];
    }
  }

  /** The scan's test is exact: over tokens of grants and helpers it accepts a token if and only
    * if the token carries the wanted tag, fallbacks included. */
  lemma DisplayMatchIsLabel(tag: string, wanted: string)
    requires PortalLabel(tag) && PortalLabel(wanted)
    ensures DisplayMatches(DisplayName(tag), wanted) <==> tag == wanted
  {
    var display := DisplayName(tag);
    assert display[..6] == "token-" && display[6..] == Rewrite(tag);
    if display == DisplayName(wanted) {
      assert Rewrite(tag) == DisplayName(wanted)[6..] == Rewrite(wanted);
      RewriteInjective(tag, wanted);
    }
    var i :| 0 <= i < |wanted| && wanted[i] == '_';
    assert |display| > 6 + i ==> display[6 + i] == Rewrite(tag)[i] != ("token-" + wanted)[6 + i];
    assert display[0] == display[..6][0] == 't';
  }
}
