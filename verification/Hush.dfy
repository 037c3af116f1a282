/** Database sessions beside the grant lifecycle: an account that refuses logins and has no session
  * stays so unless an account of that name is created. */
module Hush {
  import opened Names
  import opened Wrappers
  import opened Protocol
  import opened Invariant
  import opened Lockout

  /** No login is admitted and no session is left. */
  predicate Hushed(pg: Pg, a: Account) {
    Silent(pg, NameOf(a))
  }

  predicate Silent(pg: Pg, name: string) {
    !Admits(pg, name) && Sessions(pg, name) == 0
  }

  ghost predicate StaysHushed(pg: Pg, pg': Pg, g: GrantId) {
    forall a: Account :: a.grant == g && Hushed(pg, a) ==> Hushed(pg', a)
  }

  /** Every PostgreSQL account of `g` that `at` shows is silent. */
  ghost predicate Silenced(at: World, pg: Pg, g: GrantId) {
    forall a :: a in AccountsOf(at, g) && a.db.Postgres? ==> Hushed(pg, a)
  }

  /** Every PostgreSQL account of `g` that `at` shows is silent or still to do. */
  ghost predicate SilencedBut(at: World, pg: Pg, g: GrantId, todo: set<Account>) {
    forall a :: a in AccountsOf(at, g) && a.db.Postgres? ==> a in todo || Hushed(pg, a)
  }

  lemma OneMoreSilenced(at: World, pg: Pg, pg': Pg, g: GrantId, todo: set<Account>, a: Account)
    requires SilencedBut(at, pg, g, todo) && StaysHushed(pg, pg', g) && (a.db.Postgres? ==> Hushed(pg', a))
    ensures SilencedBut(at, pg', g, todo - {a})
  {
  }

  lemma SilencedStays(at: World, pg: Pg, pg': Pg, g: GrantId)
    requires Silenced(at, pg, g) && StaysHushed(pg, pg', g)
    ensures Silenced(at, pg', g)
  {
  }

  /** Silent names stay silent, except those of accounts that came in between. */
  ghost predicate HushSafe(w: World, w': World, pg: Pg, pg': Pg) {
    forall name :: Silent(pg, name) && (forall x :: x in w'.accounts - w.accounts ==> NameOf(x) != name) ==> Silent(pg', name)
  }

  lemma NoNewName(w: World, w': World, g: GrantId, a: Account, x: Account)
    requires Inv(w') && IsGrantId(g) && AccountsOf(w', g) <= AccountsOf(w, g)
    requires a.grant == g && x in w'.accounts - w.accounts
    ensures NameOf(x) != NameOf(a)
  {
    assert GrantInv(w', x.grant) && x in AccountsOf(w', x.grant);
    PrefixIsOwnership(g, x.grant, x.random);
    PrefixIsOwnership(g, g, a.random);
    assert x !in AccountsOf(w', g);
  }

  /** Without new accounts of `g` the accounts of `g` stay as silent as they are. */
  lemma HushKept(w: World, w': World, pg: Pg, pg': Pg, g: GrantId)
    requires Inv(w') && IsGrantId(g) && AccountsOf(w', g) <= AccountsOf(w, g) && HushSafe(w, w', pg, pg')
    ensures StaysHushed(pg, pg', g)
  {
    forall a: Account | a.grant == g && Hushed(pg, a) ensures Hushed(pg', a) {
      forall x | x in w'.accounts - w.accounts ensures NameOf(x) != NameOf(a) {
        NoNewName(w, w', g, a, x);
      }
    }
  }

  /** One thing the database, its clients or a manager's statement does to one name. */
  datatype Deed = ClientsAct(want: nat) | Lock | End | Remove | Create(account: Account)

  function After(pg: Pg, name: string, d: Deed, w: World, w': World): Pg {
    match d
    case ClientsAct(want) =>
      pg.(sessions := pg.sessions[name := if Admits(pg, name) || want <= Sessions(pg, name) then want else Sessions(pg, name)])
    case Lock => LockedOut(pg, name)
    case End => pg.(sessions := pg.sessions[name := 0])
    case Remove => pg.(admits := pg.admits - {name})
    case Create(x) => if x in w'.accounts && x !in w.accounts then pg.(admits := pg.admits[NameOf(x) := true]) else pg
  }

  lemma DeedIsSafe(pg: Pg, name: string, d: Deed, w: World, w': World)
    ensures HushSafe(w, w', pg, After(pg, name, d, w, w'))
  {
  }
}
