/** Every event keeps the invariant, so every reachable state satisfies it. */
module Preservation {
  import opened Names
  import opened Wrappers
  import opened Protocol
  import opened Invariant
  import opened Frames
  import opened SectionSteps
  import opened RowSteps
  import opened CreateSteps
  import opened RemoveSteps

  // ---- every event keeps the invariant -------------------------------------------------------

  lemma KeepIssueStart(w: World, e: Event, w': World)
    requires Inv(w) && Next(w, e) == Some(w')
    requires e.InsertRow? || e.WriteRole? || e.CreateToken? || e.StoreAccessor?
    ensures Inv(w') && Acted(w, w', e.t)
  {
    match e
    case InsertRow(t, ok) => KeepInsertRow(w, t, ok, w');
    case WriteRole(t, o, audited) => KeepWriteRole(w, t, o, audited, w');
    case CreateToken(t, o, audited, acc) => KeepCreateToken(w, t, o, audited, acc, w');
    case StoreAccessor(t, ok, audited) => KeepStoreAccessor(w, t, ok, audited, w');
    case _ =>
  }

  lemma KeepIssueEnd(w: World, e: Event, w': World)
    requires Inv(w) && Next(w, e) == Some(w')
    requires e.ReadCreds? || e.Activate? || e.Mark? || e.Reread?
    ensures Inv(w') && Acted(w, w', e.t)
  {
    match e
    case ReadCreds(t, o, audited, cred, random, duration) => KeepReadCreds(w, t, o, audited, cred, random, duration, w');
    case Activate(t, ok, audited) => KeepActivate(w, t, ok, audited, w');
    case Mark(t, ok, audited) => KeepMark(w, t, ok, audited, w');
    case Reread(t, ok) => KeepReread(w, t, ok, w');
    case _ =>
  }

  lemma KeepTeardownStart(w: World, e: Event, w': World)
    requires Inv(w) && Next(w, e) == Some(w')
    requires e.Fetch? || e.ScanTokens? || e.FindAccounts? || e.LockOut? || e.ListLeases?
    ensures Inv(w') && Acted(w, w', e.t)
  {
    match e
    case Fetch(t, ok) => KeepFetch(w, t, ok, w');
    case ScanTokens(t, ok) => KeepScanTokens(w, t, ok, w');
    case FindAccounts(t, ok) => KeepFindAccounts(w, t, ok, w');
    case LockOut(t, account, ok) => KeepLockOut(w, t, account, ok, w');
    case ListLeases(t, ok) => KeepListLeases(w, t, ok, w');
    case _ =>
  }

  lemma KeepTeardownMiddle(w: World, e: Event, w': World)
    requires Inv(w) && Next(w, e) == Some(w')
    requires e.RevokeLease? || e.FindAgain? || e.Drop? || e.Confirm?
    ensures Inv(w') && Acted(w, w', e.t)
  {
    match e
    case RevokeLease(t, cred, o) => KeepRevokeLease(w, t, cred, o, w');
    case FindAgain(t, ok) => KeepFindAgain(w, t, ok, w');
    case Drop(t, account, o) => KeepDrop(w, t, account, o, w');
    case Confirm(t, ok) => KeepConfirm(w, t, ok, w');
    case _ =>
  }

  lemma KeepLastRemovals(w: World, e: Event, w': World)
    requires Inv(w) && Next(w, e) == Some(w')
    requires e.RevokeToken? || e.DeleteRole?
    ensures Inv(w') && Acted(w, w', e.t)
  {
    match e
    case RevokeToken(t, acc, o) => KeepRevokeToken(w, t, acc, o, w');
    case DeleteRole(t, o) => KeepDeleteRole(w, t, o, w');
    case _ =>
  }

  lemma KeepTeardownEnd(w: World, e: Event, w': World)
    requires Inv(w) && Next(w, e) == Some(w')
    requires e.Finish? || e.MarkFailed?
    ensures Inv(w') && Acted(w, w', e.t)
  {
    match e
    case Finish(t, ok, audited) => KeepFinish(w, t, ok, audited, w');
    case MarkFailed(t, ok) => KeepMarkFailed(w, t, ok, w');
    case _ =>
  }

  lemma KeepActing(w: World, e: Event, w': World)
    requires Inv(w) && Next(w, e) == Some(w') && OfThread(e) && !Starts(e)
    requires !e.Acquire? && !e.GiveUp? && !e.Enter? && !e.Discard? && !e.Release?
    ensures Inv(w') && Acted(w, w', e.t)
  {
    if e.InsertRow? || e.WriteRole? || e.CreateToken? || e.StoreAccessor? {
      KeepIssueStart(w, e, w');
    } else if e.ReadCreds? || e.Activate? || e.Mark? || e.Reread? {
      KeepIssueEnd(w, e, w');
    } else if e.Fetch? || e.ScanTokens? || e.FindAccounts? || e.LockOut? || e.ListLeases? {
      KeepTeardownStart(w, e, w');
    } else if e.RevokeLease? || e.FindAgain? || e.Drop? || e.Confirm? {
      KeepTeardownMiddle(w, e, w');
    } else if e.RevokeToken? || e.DeleteRole? {
      KeepLastRemovals(w, e, w');
    } else {
      KeepTeardownEnd(w, e, w');
    }
  }

  lemma Keep(w: World, e: Event, w': World)
    requires Inv(w) && Next(w, e) == Some(w')
    ensures Inv(w')
  {
    match e
    case StartIssue(_, _, _, _) => KeepStart(w, e, w');
    case StartRevoke(_, _) => KeepStart(w, e, w');
    case StartReconcile(_, _) => KeepStart(w, e, w');
    case Acquire(t) => KeepAcquire(w, t, w');
    case GiveUp(t) => KeepGiveUp(w, t, w');
    case Enter(t) => KeepEnter(w, t, w');
    case Discard(t) => KeepDiscard(w, t, w');
    case Release(t) => KeepRelease(w, t, w');
    case ExpireLease(cred, recorded) => KeepExpireLease(w, cred, recorded, w');
    case ExpireToken(acc, kill) => KeepExpireToken(w, acc, kill, w');
    case Tick(d) => KeepTick(w, d, w');
    case Crash => KeepCrash(w, w');
    case _ => KeepActing(w, e, w');
  }

  lemma {:induction false} RunKeeps(w: World, es: seq<Event>, w': World)
    requires Inv(w) && Run(w, es) == Some(w')
    ensures Inv(w')
    decreases |es|
  {
    if es != [] {
      var m := Next(w, es[0]).value;
      Keep(w, es[0], m);
      RunKeeps(m, es[1..], w');
    }
  }

  lemma ReachableInv(w: World)
    requires Reachable(w)
    ensures Inv(w)
  {
    var start, es :| Initial(start) && Run(start, es) == Some(w);
    RunKeeps(start, es, w);
  }
}
