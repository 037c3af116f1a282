/** An issue can fail although no call fails: its token may run out before it is used. */
module LateToken {
  import opened Names
  import opened Wrappers
  import opened Protocol
  import opened Reopening

  function Issuer(g: GrantId, pc: Pc): Thread {
    Thread(Issue(TTL_MIN), g, Postgres, pc)
  }

  lemma Inserts(g: GrantId, w: World, t: Tid) returns (m: World)
    requires Reachable(w) && w.store == map[] && w.roles == map[]
    requires t in w.threads && w.threads[t] == Issuer(g, Entering)
    ensures Reachable(m) && m.store == map[g := FreshRow()] && m.roles == map[]
    ensures m == w.(store := m.store, inflight := m.inflight, threads := w.threads[t := Issuer(g, WritingRole)])
  {
    var w1 := Goto(w.(inflight := w.inflight + {g}), t, Inserting);
    Onwards(w, Enter(t), w1);
    m := Goto(SetRow(w1, g, FreshRow()), t, WritingRole);
    Onwards(w1, InsertRow(t, true), m);
  }

  lemma WritesRole(g: GrantId, w: World, t: Tid) returns (m: World)
    requires Reachable(w) && t in w.threads && w.threads[t] == Issuer(g, WritingRole)
    ensures Reachable(m) && m == Goto(w.(roles := w.roles[g := Postgres]), t, CreatingToken)
  {
    m := Goto(w.(roles := w.roles[g := Postgres]), t, CreatingToken);
    Onwards(w, Event.WriteRole(t, Done, true), m);
  }

  lemma MakesToken(g: GrantId, w: World, t: Tid, acc: Accessor) returns (m: World)
    requires Reachable(w) && t in w.threads && w.threads[t] == Issuer(g, CreatingToken) && acc !in w.tokenLog
    ensures Reachable(m)
    ensures m == Goto(WithToken(w, acc, Token(g, w.clock, w.clock + TokenTtl(TTL_MIN) as real)), t, StoringAccessor(acc))
  {
    m := Goto(WithToken(w, acc, Token(g, w.clock, w.clock + TokenTtl(TTL_MIN) as real)), t, StoringAccessor(acc));
    Onwards(w, Event.CreateToken(t, Done, true, acc), m);
  }

  lemma NotesAccessor(g: GrantId, w: World, t: Tid, acc: Accessor) returns (m: World)
    requires Reachable(w) && t in w.threads && w.threads[t] == Issuer(g, StoringAccessor(acc)) && g in w.store
    ensures Reachable(m) && m == Goto(SetRow(w, g, w.store[g].(accessor := Some(acc))), t, ReadingCreds(acc))
  {
    m := Goto(SetRow(w, g, w.store[g].(accessor := Some(acc))), t, ReadingCreds(acc));
    Onwards(w, Event.StoreAccessor(t, true, true), m);
  }

  lemma RunsOut(w: World, acc: Accessor) returns (m: World)
    requires Reachable(w) && acc in w.tokens && acc in w.tokenLog && w.clock <= w.tokenLog[acc].end
    requires forall l :: l in w.leases ==> l !in w.leaseLog || w.leaseLog[l].token != acc
    ensures Reachable(m) && acc !in m.tokens && m.threads == w.threads && m.store == w.store && m.clock == w.tokenLog[acc].end
  {
    var d := w.tokenLog[acc].end - w.clock;
    var w1 := w.(clock := w.clock + d);
    Onwards(w, Tick(d), w1);
    m := KillToken(w1, acc, {});
    Onwards(w1, ExpireToken(acc, {}), m);
  }

  /** A run in which every call of an issue succeeds until its token, unused for its whole lifetime, is
    * gone: whatever happens next, Vault can only refuse to hand out credentials. */
  lemma TokenMayRunOut(g: GrantId, w0: World, t: Tid) returns (w: World)
    requires IsGrantId(g) && Initial(w0)
    ensures Reachable(w) && g in w.store && w.store[g].status.Issuing?
    ensures t in w.threads && w.threads[t].g == g && w.threads[t].op.Issue? && w.threads[t].pc.ReadingCreds?
    ensures w.threads[t].pc.acc !in w.tokens && w.clock == w0.clock + (TTL_MIN + TOKEN_GRACE) as real
    ensures forall o, audited, cred, random, duration ::
              Next(w, ReadCreds(t, o, audited, cred, random, duration)).Some? ==> o.Rejected?
  {
    var w1 := IssueEnters(g, w0, t);
    var w2 := Inserts(g, w1, t);
    var w3 := WritesRole(g, w2, t);
    var acc := Unused(w3.tokenLog.Keys);
    var w4 := MakesToken(g, w3, t, acc);
    var w5 := NotesAccessor(g, w4, t, acc);
    w := RunsOut(w5, acc);
    OnlyRefused(w, t);
  }

  lemma OnlyRefused(w: World, t: Tid)
    requires t in w.threads && w.threads[t].pc.ReadingCreds? && w.threads[t].pc.acc !in w.tokens
    ensures forall o, audited, cred, random, duration ::
              Next(w, ReadCreds(t, o, audited, cred, random, duration)).Some? ==> o.Rejected?
  {
  }
}
