/** Thread identity over whole runs, cancellation included: tids are never
    reused, a thread is joined at most once, slots are conserved, and a thread
    cancelled while it is not current never runs again. */
module Identity {
  import opened Types
  import opened Threads
  import opened Sync
  import opened Machine
  import opened Accounting
  import opened Shapes

  /** The tid whose slot the move frees, when it ends a join with OK. */
  function Reaped(w: World, mv: Move): Option<nat>
    requires Enabled(w, mv)
  {
    if Step(w, mv).outcome.Return? && Step(w, mv).outcome.res.status == OK && w.t.current == 0 then
      (if mv == Continue then Some(w.main.tid)
       else if mv.Call? && mv.op.Join? then Some(mv.op.tid)
       else None)
    else None
  }

  predicate Creates(w: World, mv: Move)
    requires Enabled(w, mv)
  {
    mv.Call? && mv.op.Create? && Step(w, mv).outcome.Return? && Step(w, mv).outcome.res.status == OK
  }

  // ----- Names change only by create and join -----

  lemma CallNames(w: World, op: Op)
    requires Wf(w) && Enabled(w, Call(op)) && !op.Create? && !op.Join?
    ensures var u := Step(w, Call(op)).w; SameNames(w.t.threads, u.t.threads) && u.t.nextTid == w.t.nextTid
    ensures Step(w, Call(op)).w.t.current in {w.t.current, 0}
  {
    match op
    case Yield => if w.t.current != 0 { YieldOk(w.t); }
    case Exit(v) => ExitOk(w.t, v);
    case Cancel(tid) => CancelOk(w.t, tid);
    case Init(k, _) =>
    case On(k, call) => PerformOk(w.t, w.objs[k], k, call); OnShape(w, k, call);
    case CondWait(c, m) => CondWaitOk(w.t, w.objs[c], w.objs[m], c, m); CondWaitShape(w, c, m);
  }

  lemma StepNames(w: World, mv: Move)
    requires Wf(w) && Enabled(w, mv) && !Creates(w, mv) && Reaped(w, mv).None?
    ensures var u := Step(w, mv).w; SameNames(w.t.threads, u.t.threads) && u.t.nextTid == w.t.nextTid
    ensures !mv.Sched? ==> Step(w, mv).w.t.current in {w.t.current, 0}
  {
    match mv
    case Continue =>
      if w.t.current != 0 {
        var m := w.ctl[Me(w)].m;
        LockOk(w.t, w.objs[m], m);
        RelockOk(w.t, w.objs[m], m);
      }
    case Sched(choice) => if choice.Some? { DispatchOk(w.t, choice.value); }
    case Call(op) => if !op.Create? && !op.Join? { CallNames(w, op); }
  }

  /** A join that returns OK frees the slot of a thread that had finished. */
  lemma ReapShape(w: World, mv: Move)
    requires Wf(w) && Enabled(w, mv) && Reaped(w, mv).Some?
    ensures var i := FindSlot(w.t.threads, Reaped(w, mv).value);
            && i < |w.t.threads| && Terminal(w.t.threads[i].state)
            && Step(w, mv).w.t == Release(w.t, i)
            && Step(w, mv).outcome.res.value == w.t.threads[i].retval
  {
    if mv == Continue { SlotUnique(w.t, w.main.slot); }
  }

  lemma CreateShape(w: World, mv: Move)
    requires Wf(w) && Enabled(w, mv) && Creates(w, mv)
    ensures var i := EmptySlot(w.t.threads);
            && i < |w.t.threads|
            && Step(w, mv).w.t.threads == w.t.threads[i := Thread(w.t.nextTid, Ready, mv.op.priority, 0)]
            && Step(w, mv).w.t.nextTid == w.t.nextTid + 1
            && Step(w, mv).outcome.res.value == w.t.nextTid
  {
  }

  // ----- Slots are conserved -----

  lemma {:induction false} CountNames(ts: seq<Thread>, us: seq<Thread>)
    requires SameNames(ts, us)
    ensures Count(ts, Empty) == Count(us, Empty)
    decreases |ts|
  {
    if ts == [] {
    } else {
      CountNames(ts[..|ts| - 1], us[..|us| - 1]);
    }
  }

  lemma SlotStep(w: World, mv: Move)
    requires Wf(w) && Enabled(w, mv)
    ensures Count(Step(w, mv).w.t.threads, Empty) + One(Creates(w, mv))
            == Count(w.t.threads, Empty) + One(Reaped(w, mv).Some?)
  {
    if Creates(w, mv) {
      CreateShape(w, mv);
      var i := EmptySlot(w.t.threads);
      CountUpdate(w.t.threads, i, Step(w, mv).w.t.threads[i], Empty);
    } else if Reaped(w, mv).Some? {
      ReapShape(w, mv);
      CountUpdate(w.t.threads, FindSlot(w.t.threads, Reaped(w, mv).value), EMPTY_THREAD, Empty);
    } else {
      StepNames(w, mv);
      CountNames(w.t.threads, Step(w, mv).w.t.threads);
    }
  }

  function CreateCount(w: World, mvs: seq<Move>): nat
    requires Runs(w, mvs)
    decreases |mvs|
  {
    if mvs == [] then 0 else One(Creates(w, mvs[0])) + CreateCount(Step(w, mvs[0]).w, mvs[1..])
  }

  function JoinCount(w: World, mvs: seq<Move>): nat
    requires Runs(w, mvs)
    decreases |mvs|
  {
    if mvs == [] then 0 else One(Reaped(w, mvs[0]).Some?) + JoinCount(Step(w, mvs[0]).w, mvs[1..])
  }

  lemma {:induction false} SlotRun(w: World, mvs: seq<Move>)
    requires Wf(w) && Runs(w, mvs)
    ensures Count(Final(w, mvs).t.threads, Empty) + CreateCount(w, mvs)
            == Count(w.t.threads, Empty) + JoinCount(w, mvs)
    decreases |mvs|
  {
    if mvs == [] {
    } else {
      StepOk(w, mvs[0]);
      SlotStep(w, mvs[0]);
      SlotRun(Step(w, mvs[0]).w, mvs[1..]);
    }
  }

  /** From the start: successful creates minus successful joins are the slots in
      use, never more than 128, whose tids are distinct. */
  lemma SlotsConserved(w: World, mvs: seq<Move>)
    requires Start(w) && Runs(w, mvs)
    ensures var t := Final(w, mvs).t;
            && CreateCount(w, mvs) - JoinCount(w, mvs) == MAX_THREADS - Count(t.threads, Empty) >= 0
            && Ids(t)
  {
    StartWf(w);
    RunOk(w, mvs);
    SlotRun(w, mvs);
    AllEmpty(w.t.threads);
    CountBound(Final(w, mvs).t.threads, Empty);
  }

  lemma {:induction false} AllEmpty(ts: seq<Thread>)
    requires forall i :: 0 <= i < |ts| ==> ts[i] == EMPTY_THREAD
    ensures Count(ts, Empty) == |ts|
    decreases |ts|
  {
    if ts == [] {
    } else {
      AllEmpty(ts[..|ts| - 1]);
    }
  }

  // ----- A tid is joined at most once -----

  /** The thread existed and its slot has been freed. */
  predicate Gone(t: Table, tid: nat) {
    tid < t.nextTid && forall i :: 0 <= i < |t.threads| ==> !Named(t.threads[i], tid)
  }

  lemma GoneStep(w: World, mv: Move, tid: nat)
    requires Wf(w) && Enabled(w, mv) && Gone(w.t, tid)
    ensures Gone(Step(w, mv).w.t, tid) && Reaped(w, mv) != Some(tid)
  {
    if Creates(w, mv) {
      CreateShape(w, mv);
    } else if Reaped(w, mv).Some? {
      ReapShape(w, mv);
    } else {
      StepNames(w, mv);
    }
  }

  lemma {:induction false} GoneRun(w: World, mvs: seq<Move>, tid: nat)
    requires Wf(w) && Runs(w, mvs) && Gone(w.t, tid)
    ensures Wf(Final(w, mvs)) && Gone(Final(w, mvs).t, tid)
    decreases |mvs|
  {
    if mvs == [] {
    } else {
      StepOk(w, mvs[0]);
      GoneStep(w, mvs[0], tid);
      GoneRun(Step(w, mvs[0]).w, mvs[1..], tid);
    }
  }

  lemma ReapedGone(w: World, mv: Move, tid: nat)
    requires Wf(w) && Enabled(w, mv) && Reaped(w, mv) == Some(tid)
    ensures Gone(Step(w, mv).w.t, tid)
  {
    ReapShape(w, mv);
    var i := FindSlot(w.t.threads, tid);
    forall j | 0 <= j < |w.t.threads| && j != i ensures !Named(w.t.threads[j], tid) {
      if Named(w.t.threads[j], tid) { SlotUnique(w.t, j); }
    }
  }

  /** Once a join of `tid` has returned OK, no move of any later run does so
      again, and the tid is never handed out again. */
  lemma JoinedOnce(w: World, first: Move, mvs: seq<Move>, later: Move, tid: nat)
    requires Wf(w) && Enabled(w, first) && Reaped(w, first) == Some(tid)
    requires Runs(Step(w, first).w, mvs) && Enabled(Final(Step(w, first).w, mvs), later)
    ensures var u := Final(Step(w, first).w, mvs);
            && Reaped(u, later) != Some(tid)
            && (Creates(u, later) ==> Step(u, later).outcome.res.value != tid)
  {
    StepOk(w, first);
    ReapedGone(w, first, tid);
    GoneRun(Step(w, first).w, mvs, tid);
    var u := Final(Step(w, first).w, mvs);
    GoneStep(u, later, tid);
    if Creates(u, later) { CreateShape(u, later); }
  }

  // ----- A finished thread stays finished -----

  /** Thread `tid` is off the processor and has ended in state `st` with value
      `v`, or is already joined. */
  predicate Dead(t: Table, tid: nat, st: ThreadState, v: nat) {
    && 0 < tid < t.nextTid && tid != t.current && Terminal(st)
    && forall i :: 0 <= i < |t.threads| && Named(t.threads[i], tid) ==>
         t.threads[i].state == st && t.threads[i].retval == v
  }

  /** Calls on objects touch the calling slot and BLOCKED slots only. */
  lemma PerformTouches(t: Table, o: Object, k: nat, call: ObjectCall, i: nat)
    requires TableOk(t) && Fits(o.kind, call) && i < |t.threads| && t.threads[i].state != Blocked
    requires t.current != 0 ==> i != CurrentSlot(t)
    ensures var e := Perform(t, o, k, call); i < |e.t.threads| && e.t.threads[i] == t.threads[i]
  {
    if call == Broadcast { UnblockAllTouches(t, o.q.items, i); }
  }

  lemma {:induction false} UnblockAllTouches(t: Table, ws: seq<nat>, i: nat)
    requires i < |t.threads| && t.threads[i].state != Blocked
    ensures var u := UnblockAll(t, ws); i < |u.threads| && u.threads[i] == t.threads[i]
    decreases |ws|
  {
    if ws == [] {
    } else {
      UnblockAllTouches(Unblock(t, ws[0]), ws[1..], i);
    }
  }

  /** Slot `i` is in use, neither running nor BLOCKED, and this call does not
      cancel it. */
  predicate Aside(w: World, mv: Move, i: nat) {
    && i < |w.t.threads| && Live(w.t.threads[i]) && w.t.threads[i].state != Blocked
    && (w.t.current != 0 ==> i != Me(w))
    && (mv.Call? && mv.op.Cancel? && mv.op.tid == w.t.threads[i].tid ==> Terminal(w.t.threads[i].state))
  }

  predicate Untouched(w: World, op: Op, i: nat)
    requires Enabled(w, Call(op)) && i < |w.t.threads|
  {
    var u := Step(w, Call(op)).w;
    i < |u.t.threads| && u.t.threads[i] == w.t.threads[i]
  }

  lemma OnTouches(w: World, k: nat, call: ObjectCall, i: nat)
    requires Wf(w) && Enabled(w, Call(On(k, call))) && Aside(w, Call(On(k, call)), i)
    ensures Untouched(w, On(k, call), i)
  {
    PerformTouches(w.t, w.objs[k], k, call, i);
    OnShape(w, k, call);
  }

  lemma CondWaitTouches(w: World, c: nat, m: nat, i: nat)
    requires Wf(w) && Enabled(w, Call(CondWait(c, m))) && Aside(w, Call(CondWait(c, m)), i)
    ensures Untouched(w, CondWait(c, m), i)
  {
    CondWaitShape(w, c, m);
  }

  lemma CancelTouches(w: World, tid: nat, i: nat)
    requires Wf(w) && Enabled(w, Call(Cancel(tid))) && Aside(w, Call(Cancel(tid)), i)
    ensures Untouched(w, Cancel(tid), i)
  {
    var j := FindSlot(w.t.threads, tid);
    if j < |w.t.threads| && j != i {
      assert CancelThread(w.t, tid).t.threads[i] == w.t.threads[i];
    }
  }

  lemma CallTouches(w: World, op: Op, i: nat)
    requires Wf(w) && Enabled(w, Call(op)) && !op.Join? && !op.Create? && Aside(w, Call(op), i)
    ensures Untouched(w, op, i)
  {
    match op
    case On(k, call) => OnTouches(w, k, call, i);
    case CondWait(c, m) => CondWaitTouches(w, c, m, i);
    case Cancel(tid) => CancelTouches(w, tid, i);
    case _ =>
  }

  lemma StepTouches(w: World, mv: Move, i: nat)
    requires Wf(w) && Enabled(w, mv) && !Creates(w, mv) && Reaped(w, mv).None? && Aside(w, mv, i)
    requires mv != Sched(Some(i))
    ensures var u := Step(w, mv).w; i < |u.t.threads| && u.t.threads[i] == w.t.threads[i]
  {
    if mv.Call? && !mv.op.Join? && !mv.op.Create? { CallTouches(w, mv.op, i); }
  }

  lemma DeadKept(w: World, mv: Move, tid: nat, st: ThreadState, v: nat)
    requires Wf(w) && Enabled(w, mv) && Dead(w.t, tid, st, v) && !Creates(w, mv) && Reaped(w, mv).None?
    ensures Dead(Step(w, mv).w.t, tid, st, v)
  {
    StepNames(w, mv);
    var u := Step(w, mv).w;
    forall i | 0 <= i < |u.t.threads| && Named(u.t.threads[i], tid)
      ensures u.t.threads[i].state == st && u.t.threads[i].retval == v
    {
      assert Named(w.t.threads[i], tid);
      StepTouches(w, mv, i);
    }
    assert mv.Sched? && mv.choice.Some? ==> !Named(w.t.threads[mv.choice.value], tid);
  }

  lemma DeadStep(w: World, mv: Move, tid: nat, st: ThreadState, v: nat)
    requires Wf(w) && Enabled(w, mv) && Dead(w.t, tid, st, v)
    ensures Dead(Step(w, mv).w.t, tid, st, v)
    ensures mv.Sched? && mv.choice.Some? ==> w.t.threads[mv.choice.value].tid != tid
    ensures Reaped(w, mv) == Some(tid) ==> Step(w, mv).outcome == Return(Result(OK, v))
  {
    if Creates(w, mv) {
      CreateShape(w, mv);
    } else if Reaped(w, mv).Some? {
      ReapShape(w, mv);
    } else {
      DeadKept(w, mv, tid, st, v);
      assert mv.Sched? && mv.choice.Some? ==> !Named(w.t.threads[mv.choice.value], tid);
    }
  }

  lemma {:induction false} DeadRun(w: World, mvs: seq<Move>, tid: nat, st: ThreadState, v: nat)
    requires Wf(w) && Runs(w, mvs) && Dead(w.t, tid, st, v)
    ensures Wf(Final(w, mvs)) && Dead(Final(w, mvs).t, tid, st, v)
    decreases |mvs|
  {
    if mvs == [] {
    } else {
      StepOk(w, mvs[0]);
      DeadStep(w, mvs[0], tid, st, v);
      DeadRun(Step(w, mvs[0]).w, mvs[1..], tid, st, v);
    }
  }

  /** After a cancellation of a thread that is not the current one took effect,
      no later dispatch picks that thread, whatever stale queue entries are
      woken, and joining it hands out NULL. */
  lemma CanceledNeverRuns(w: World, tid: nat, mvs: seq<Move>, mv: Move)
    requires Wf(w) && Enabled(w, Call(Cancel(tid))) && tid != w.t.current
    requires Step(w, Call(Cancel(tid))).outcome == Status0(OK)
    requires var u := Step(w, Call(Cancel(tid))).w; Runs(u, mvs) && Enabled(Final(u, mvs), mv)
    ensures var v := Final(Step(w, Call(Cancel(tid))).w, mvs);
            && (mv.Sched? && mv.choice.Some? ==> v.t.threads[mv.choice.value].tid != tid)
            && (Reaped(v, mv) == Some(tid) ==> Step(v, mv).outcome == Return(Result(OK, 0)))
  {
    var u := Step(w, Call(Cancel(tid))).w;
    CanceledDead(w, tid);
    StepOk(w, Call(Cancel(tid)));
    DeadRun(u, mvs, tid, Canceled, 0);
    DeadStep(Final(u, mvs), mv, tid, Canceled, 0);
  }

  lemma CanceledDead(w: World, tid: nat)
    requires Wf(w) && Enabled(w, Call(Cancel(tid))) && tid != w.t.current
    requires Step(w, Call(Cancel(tid))).outcome == Status0(OK)
    ensures Dead(Step(w, Call(Cancel(tid))).w.t, tid, Canceled, 0)
  {
    CallNames(w, Cancel(tid));
    var i := FindSlot(w.t.threads, tid);
    forall j | 0 <= j < |w.t.threads| && Named(w.t.threads[j], tid) ensures j == i { SlotUnique(w.t, j); }
  }

  /** What a thread returns is what its join hands out, after any run in between,
      unless the thread is CANCELED when it returns: then it is NULL. It never runs
      again either way. */
  lemma JoinDelivers(w: World, v: nat, mvs: seq<Move>, mv: Move)
    requires Wf(w) && w.t.current != 0 && Enabled(w, Call(Exit(v)))
    requires var u := Step(w, Call(Exit(v))).w; Runs(u, mvs) && Enabled(Final(u, mvs), mv)
    ensures var x, tid := Final(Step(w, Call(Exit(v))).w, mvs), w.t.current;
            && (mv.Sched? && mv.choice.Some? ==> x.t.threads[mv.choice.value].tid != tid)
            && (Reaped(x, mv) == Some(tid) ==>
                  Step(x, mv).outcome == Return(Result(OK, if w.t.threads[Me(w)].state == Running then v else 0)))
  {
    var u := Step(w, Call(Exit(v))).w;
    var st := if w.t.threads[Me(w)].state == Running then Done else Canceled;
    var value := if w.t.threads[Me(w)].state == Running then v else 0;
    ExitedDead(w, v);
    StepOk(w, Call(Exit(v)));
    DeadRun(u, mvs, w.t.current, st, value);
    DeadStep(Final(u, mvs), mv, w.t.current, st, value);
  }

  lemma ExitedDead(w: World, v: nat)
    requires Wf(w) && w.t.current != 0 && Enabled(w, Call(Exit(v)))
    ensures var running := w.t.threads[Me(w)].state == Running;
            Dead(Step(w, Call(Exit(v))).w.t, w.t.current, if running then Done else Canceled, if running then v else 0)
  {
    CallNames(w, Exit(v));
    forall j | 0 <= j < |w.t.threads| && Named(w.t.threads[j], w.t.current) ensures j == Me(w) { SlotUnique(w.t, j); }
  }

  /** A READY thread stays READY until it is dispatched or cancelled. */
  lemma ReadyStays(w: World, mv: Move, i: nat)
    requires Wf(w) && Enabled(w, mv) && Aside(w, mv, i) && w.t.threads[i].state == Ready
    requires mv != Sched(Some(i))
    ensures var u := Step(w, mv).w; i < |u.t.threads| && u.t.threads[i] == w.t.threads[i]
  {
    if Creates(w, mv) {
      CreateShape(w, mv);
    } else if Reaped(w, mv).Some? {
      ReapShape(w, mv);
    } else {
      StepTouches(w, mv, i);
    }
  }
}
