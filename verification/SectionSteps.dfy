/** Starting an operation, taking and giving back the lock, and a crash keep the invariant. */
module SectionSteps {
  import opened Names
  import opened Wrappers
  import opened Protocol
  import opened Invariant
  import opened Frames

  // ---- entering and leaving ------------------------------------------------------------------

  /** Worlds that agree on everything but threads, locks and the in-flight set. */
  predicate SameResources(w: World, w': World) {
    w' == w.(threads := w'.threads, locks := w'.locks, inflight := w'.inflight)
  }

  lemma ControlStep(w: World, w': World)
    requires Inv(w) && SameResources(w, w') && LockInv(w')
    requires forall t :: t in w'.threads ==>
      (t in w.threads && w.threads[t] == w'.threads[t]) || ThreadInv(w', w'.threads[t])
    ensures Inv(w')
  {
    LogKept(w, w');
    forall h ensures GrantInv(w', h) {
      GrantFrame(w, w', h);
    }
    forall t | t in w'.threads ensures ThreadInv(w', w'.threads[t]) {
      if t in w.threads && w.threads[t] == w'.threads[t] {
        assert ThreadInv(w, w.threads[t]);
        ThreadFrame(w, w', w.threads[t]);
      }
    }
  }

  lemma InflightWitness(w: World, w': World, t: Tid, gone: GrantId)
    requires LockInv(w)
    requires forall u :: u in w.threads && u != t ==> u in w'.threads && w'.threads[u] == w.threads[u]
    requires t in w.threads && (w.threads[t].g == gone || !InSection(w.threads[t].pc))
    requires forall g :: g in w'.inflight ==>
      (g in w.inflight && (g != gone || !InSection(w.threads[t].pc)))
      || (t in w'.threads && w'.threads[t].g == g && InSection(w'.threads[t].pc))
    ensures forall g :: g in w'.inflight ==>
      exists u :: u in w'.threads && w'.threads[u].g == g && InSection(w'.threads[u].pc)
  {
    forall g | g in w'.inflight
      ensures exists u :: u in w'.threads && w'.threads[u].g == g && InSection(w'.threads[u].pc)
    {
      if t in w'.threads && w'.threads[t].g == g && InSection(w'.threads[t].pc) {
      } else {
        var u :| u in w.threads && w.threads[u].g == g && InSection(w.threads[u].pc);
        assert u != t;
        assert u in w'.threads && w'.threads[u].g == g && InSection(w'.threads[u].pc);
      }
    }
  }

  lemma KeepStart(w: World, e: Event, w': World)
    requires Inv(w) && Starts(e) && Next(w, e) == Some(w')
    ensures Inv(w')
  {
    forall g | g in w'.inflight
      ensures exists u :: u in w'.threads && w'.threads[u].g == g && InSection(w'.threads[u].pc)
    {
      var u :| u in w.threads && w.threads[u].g == g && InSection(w.threads[u].pc);
      assert u in w'.threads && w'.threads[u].g == g && InSection(w'.threads[u].pc);
    }
    assert GrantInv(w, e.g);
    ControlStep(w, w');
  }

  lemma KeepAcquire(w: World, t: Tid, w': World)
    requires Inv(w) && t in w.threads && DoAcquire(w, t, w.threads[t]) == Some(w')
    ensures Inv(w')
  {
    var th := w.threads[t];
    assert ThreadInv(w, th);
    InflightWitness(w, w', t, th.g);
    ControlStep(w, w');
  }

  lemma KeepGiveUp(w: World, t: Tid, w': World)
    requires Inv(w) && t in w.threads && DoGiveUp(w, t, w.threads[t]) == Some(w')
    ensures Inv(w')
  {
    var th := w.threads[t];
    assert ThreadInv(w, th);
    InflightWitness(w, w', t, th.g);
    ControlStep(w, w');
  }

  /** A thread moves at the edge of its section and the in-flight set follows. */
  lemma EdgeStep(w: World, w': World, t: Tid, th': Thread)
    requires Inv(w) && SameResources(w, w') && w'.locks == w.locks
    requires t in w.threads && w'.threads == w.threads[t := th']
    requires th' == w.threads[t].(pc := th'.pc) && Holds(w.threads[t].pc) && Holds(th'.pc)
    requires (!InSection(w.threads[t].pc) && InSection(th'.pc) && w'.inflight == w.inflight + {th'.g})
      || w'.inflight == w.inflight - {th'.g}
    requires ThreadInv(w, th')
    ensures Inv(w')
  {
    InflightWitness(w, w', t, th'.g);
    ThreadFrame(w, w', th');
    ControlStep(w, w');
  }

  lemma KeepEnter(w: World, t: Tid, w': World)
    requires Inv(w) && t in w.threads && DoEnter(w, t, w.threads[t]) == Some(w')
    ensures Inv(w')
  {
    assert ThreadInv(w, w.threads[t]);
    EdgeStep(w, w', t, w'.threads[t]);
  }

  lemma KeepDiscard(w: World, t: Tid, w': World)
    requires Inv(w) && t in w.threads && DoDiscard(w, t, w.threads[t]) == Some(w')
    ensures Inv(w')
  {
    assert ThreadInv(w, w.threads[t]);
    EdgeStep(w, w', t, w'.threads[t]);
  }

  lemma KeepRelease(w: World, t: Tid, w': World)
    requires Inv(w) && t in w.threads && DoRelease(w, t, w.threads[t]) == Some(w')
    ensures Inv(w')
  {
    var th := w.threads[t];
    assert ThreadInv(w, th);
    InflightWitness(w, w', t, th.g);
    ControlStep(w, w');
  }

  lemma KeepCrash(w: World, w': World)
    requires Inv(w) && Next(w, Crash) == Some(w')
    ensures Inv(w')
  {
    ControlStep(w, w');
  }
}
