/** When the cancellation of the running thread stands. A thread may cancel itself:
    it is CANCELED and still current, and its later calls may overwrite that. */
module Cancellation {
  import opened Types
  import opened Threads
  import opened Sync
  import opened Machine
  import opened Accounting
  import opened Shapes
  import opened Identity
  import opened Control

  /** The caller would block on this mutex. */
  predicate LockBlocks(w: World, m: nat)
    requires m < |w.objs| && w.objs[m].kind.Mutex?
  {
    var o := w.objs[m];
    o.initialized && o.kind.locked && o.kind.owner != w.t.current && !Full(o.q)
  }

  /** The call, told from the state before it, makes its thread READY, BLOCKED or
      RUNNING and so undoes a cancellation. */
  predicate Revives(w: World, mv: Move)
    requires Enabled(w, mv)
  {
    match mv
    case Call(Yield) => true
    case Call(On(k, Lock)) => LockBlocks(w, k)
    case Call(On(k, Wait)) => w.objs[k].initialized && w.objs[k].kind.count == 0 && !Full(w.objs[k].q)
    case Call(CondWait(c, _)) => w.objs[c].initialized && !Full(w.objs[c].q)
    case Call(_) => false
    case Continue =>
      w.t.current != 0 &&
      (match w.ctl[Me(w)]
       case InLock(m) => w.objs[m].kind.locked && !Full(w.objs[m].q)
       case InCond(m) => LockBlocks(w, m)
       case Ret(_) => false)
    case Sched(_) => false
  }

  predicate SelfCanceled(w: World) {
    w.t.current != 0 && Me(w) < |w.t.threads| && w.t.threads[Me(w)].state == Canceled
  }

  predicate Stands(w: World, mv: Move)
    requires Enabled(w, mv)
  {
    var u := Step(w, mv).w;
    Me(w) < |u.t.threads| && u.t.threads[Me(w)].state == Canceled
  }

  lemma OnStands(w: World, k: nat, call: ObjectCall)
    requires Wf(w) && Enabled(w, Call(On(k, call))) && SelfCanceled(w)
    ensures Stands(w, Call(On(k, call))) <==> !Revives(w, Call(On(k, call)))
  {
    OnShape(w, k, call);
    if call == Broadcast { UnblockAllTouches(w.t, w.objs[k].q.items, Me(w)); }
  }

  lemma ContinueStands(w: World)
    requires Wf(w) && Enabled(w, Continue) && SelfCanceled(w)
    ensures Stands(w, Continue) <==> !Revives(w, Continue)
  {
    ContinueShape(w);
  }

  lemma CondWaitStands(w: World, c: nat, m: nat)
    requires Wf(w) && Enabled(w, Call(CondWait(c, m))) && SelfCanceled(w)
    ensures Stands(w, Call(CondWait(c, m))) <==> !Revives(w, Call(CondWait(c, m)))
  {
    CondWaitShape(w, c, m);
    CondWaitOk(w.t, w.objs[c], w.objs[m], c, m);
  }

  /** Exactly when a thread that cancelled itself is still CANCELED after a move of
      its own. */
  lemma CancellationStands(w: World, mv: Move)
    requires Wf(w) && Enabled(w, mv) && SelfCanceled(w)
    ensures Stands(w, mv) <==> !Revives(w, mv)
  {
    match mv
    case Continue => ContinueStands(w);
    case Call(op) =>
      match op
      case On(k, call) => OnStands(w, k, call);
      case CondWait(c, m) => CondWaitStands(w, c, m);
      case _ =>
  }

  // ----- Whole runs -----

  /** In this run nobody joins thread `tid`, and it makes no move that revives it. */
  ghost predicate NeverRevives(w: World, mvs: seq<Move>, tid: nat)
    requires Runs(w, mvs)
    decreases |mvs|
  {
    mvs == [] ||
    (&& (w.t.current == tid ==> !Revives(w, mvs[0])) && Reaped(w, mvs[0]) != Some(tid)
     && NeverRevives(Step(w, mvs[0]).w, mvs[1..], tid))
  }

  predicate CanceledAt(t: Table, i: nat, tid: nat) {
    i < |t.threads| && Named(t.threads[i], tid) && t.threads[i].state == Canceled
  }

  lemma CanceledStep(w: World, mv: Move, i: nat, tid: nat)
    requires Wf(w) && Enabled(w, mv) && CanceledAt(w.t, i, tid) && 0 < tid && Reaped(w, mv) != Some(tid)
    requires w.t.current == tid ==> !Revives(w, mv)
    ensures CanceledAt(Step(w, mv).w.t, i, tid)
  {
    NameRests(w, mv, i, tid);
    if w.t.current == tid {
      SlotUnique(w.t, i);
      CancellationStands(w, mv);
    } else if Creates(w, mv) {
      CreateShape(w, mv);
    } else if Reaped(w, mv).Some? {
      ReapShape(w, mv);
    } else {
      StepTouches(w, mv, i);
    }
  }

  /** A cancellation stands over every run in which the thread makes no reviving
      move, whether it cancelled itself or was cancelled by another. */
  lemma {:induction false} CanceledRun(w: World, mvs: seq<Move>, i: nat, tid: nat)
    requires Wf(w) && Runs(w, mvs) && CanceledAt(w.t, i, tid) && 0 < tid && NeverRevives(w, mvs, tid)
    ensures CanceledAt(Final(w, mvs).t, i, tid)
    decreases |mvs|
  {
    if mvs == [] {
    } else {
      StepOk(w, mvs[0]);
      CanceledStep(w, mvs[0], i, tid);
      CanceledRun(Step(w, mvs[0]).w, mvs[1..], i, tid);
    }
  }
}
