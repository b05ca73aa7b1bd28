/** What every step of every main-driven run keeps, cancellation included: the
    incremental counters agree with a recount of the table, live tids are
    distinct and below `nextTid`, and only the current thread runs. */
module Accounting {
  import opened Types
  import opened Threads
  import opened Machine
  import opened Sync

  predicate Counted(t: Table) {
    t.runnable == Count(t.threads, Ready) && t.blocked == Count(t.threads, Blocked)
  }

  predicate Ids(t: Table) {
    && 0 < t.nextTid
    && (forall i :: 0 <= i < |t.threads| && Live(t.threads[i]) ==> 0 < t.threads[i].tid < t.nextTid)
    && (forall i, j :: 0 <= i < j < |t.threads| && Live(t.threads[i]) && Live(t.threads[j]) ==>
          t.threads[i].tid != t.threads[j].tid)
  }

  /** A RUNNING slot belongs to the current thread. */
  predicate OneRunning(t: Table) {
    forall i :: 0 <= i < |t.threads| && t.threads[i].state == Running ==>
      t.current != 0 && t.threads[i].tid == t.current
  }

  /** The current thread is RUNNING, or CANCELED if it cancelled itself. */
  predicate OnCpu(t: Table) {
    t.current != 0 ==>
      CurrentSlot(t) < |t.threads| && t.threads[CurrentSlot(t)].state in {Running, Canceled}
  }

  predicate TableOk(t: Table) {
    |t.threads| == MAX_THREADS && Counted(t) && Ids(t) && OneRunning(t) && OnCpu(t)
  }

  predicate ObjectOk(o: Object) {
    |o.q.items| <= o.q.cap <= WAIT_QUEUE_SLOTS && forall p :: 0 <= p < |o.q.items| ==> o.q.items[p] < MAX_THREADS
  }

  predicate ResumeOk(objs: seq<Object>, r: Resume) {
    r.Ret? || (r.m < |objs| && objs[r.m].kind.Mutex?)
  }

  predicate MainOk(w: World) {
    && (w.t.current != 0 ==> !w.main.MRet?)
    && (w.main.MJoin? ==>
          w.main.slot < |w.t.threads| && Named(w.t.threads[w.main.slot], w.main.tid))
  }

  predicate Wf(w: World) {
    && TableOk(w.t)
    && |w.ctl| == MAX_THREADS
    && MainOk(w)
    && (forall k :: 0 <= k < |w.objs| ==> ObjectOk(w.objs[k]))
    && (forall i :: 0 <= i < |w.ctl| ==> ResumeOk(w.objs, w.ctl[i]))
  }

  // ----- Names -----

  predicate SameNames(ts: seq<Thread>, us: seq<Thread>) {
    |ts| == |us| && forall i :: 0 <= i < |ts| ==> ts[i].tid == us[i].tid && (Live(ts[i]) <==> Live(us[i]))
  }

  /** With distinct tids the slot of a tid is the only one that carries it. */
  lemma SlotUnique(t: Table, i: nat)
    requires Ids(t) && i < |t.threads| && Live(t.threads[i])
    ensures FindSlot(t.threads, t.threads[i].tid) == i
  {
    var j := FindSlot(t.threads, t.threads[i].tid);
    if j < i { assert false; }
  }

  lemma NamesKeepSlots(ts: seq<Thread>, us: seq<Thread>, tid: nat)
    requires SameNames(ts, us)
    ensures FindSlot(ts, tid) == FindSlot(us, tid)
  {
    var i, j := FindSlot(ts, tid), FindSlot(us, tid);
    assert i < |ts| ==> Named(us[i], tid);
    assert j < |us| ==> Named(ts[j], tid);
  }

  /** A change of counters and states that keeps names, and the state of the
      current slot, keeps a table sound if the counters follow. */
  lemma SameNamesOk(t: Table, u: Table)
    requires TableOk(t) && SameNames(t.threads, u.threads) && Counted(u)
    requires u.nextTid == t.nextTid && u.current == t.current
    requires forall i :: 0 <= i < |t.threads| && t.threads[i].tid == t.current ==>
               u.threads[i].state == t.threads[i].state
    requires forall i :: 0 <= i < |t.threads| && u.threads[i].state == Running ==> t.threads[i].state == Running
    ensures TableOk(u)
  {
    NamesKeepSlots(t.threads, u.threads, t.current);
  }

  // ----- One table change at a time -----

  lemma UnblockCounted(t: Table, i: nat)
    requires Counted(t)
    ensures Counted(Unblock(t, i)) && SameNames(t.threads, Unblock(t, i).threads)
  {
    if i < |t.threads| && t.threads[i].state == Blocked {
      var th := t.threads[i].(state := Ready);
      CountUpdate(t.threads, i, th, Ready);
      CountUpdate(t.threads, i, th, Blocked);
    }
  }

  lemma UnblockOk(t: Table, i: nat)
    requires TableOk(t)
    ensures TableOk(Unblock(t, i)) && SameNames(t.threads, Unblock(t, i).threads)
  {
    UnblockCounted(t, i);
    if t.current != 0 { SlotUnique(t, CurrentSlot(t)); }
    SameNamesOk(t, Unblock(t, i));
  }

  lemma BlockCounted(t: Table, i: nat)
    requires Counted(t) && i < |t.threads| && t.threads[i].state in {Running, Canceled}
    ensures Counted(BlockAt(t, i)) && SameNames(t.threads, BlockAt(t, i).threads)
  {
    var th := t.threads[i].(state := Blocked);
    CountUpdate(t.threads, i, th, Ready);
    CountUpdate(t.threads, i, th, Blocked);
  }

  /** No slot runs once the current thread has left the RUNNING state. */
  lemma LeaveCpu(t: Table, u: Table)
    requires TableOk(t) && t.current != 0
    requires SameNames(t.threads, u.threads) && Counted(u) && u.nextTid == t.nextTid
    requires forall i :: 0 <= i < |t.threads| && u.threads[i].state == Running ==>
               t.threads[i].state == Running && i != CurrentSlot(t)
    ensures TableOk(u.(current := 0))
  {
    forall i | 0 <= i < |t.threads| && t.threads[i].state == Running
      ensures i == CurrentSlot(t)
    {
      SlotUnique(t, i);
    }
  }

  lemma {:induction false} UnblockAllOk(t: Table, ws: seq<nat>)
    requires TableOk(t)
    ensures TableOk(UnblockAll(t, ws)) && SameNames(t.threads, UnblockAll(t, ws).threads)
    ensures UnblockAll(t, ws).current == t.current && UnblockAll(t, ws).nextTid == t.nextTid
    decreases |ws|
  {
    if ws == [] {
    } else {
      UnblockOk(t, ws[0]);
      UnblockAllOk(Unblock(t, ws[0]), ws[1..]);
    }
  }

  // ----- Calls on objects -----

  /** The table an outcome leaves behind is sound, and slots keep their names. */
  predicate Sound(t: Table, u: Table, o: Outcome) {
    && SameNames(t.threads, u.threads) && u.nextTid == t.nextTid && u.current == t.current
    && (o.Return? ==> TableOk(u))
    && (o.Swap? ==> t.current != 0 && TableOk(u.(current := 0)))
  }

  predicate SameKind(a: Kind, b: Kind) {
    (a.Mutex? <==> b.Mutex?) && (a.Sem? <==> b.Sem?)
  }

  predicate EffectOk(t: Table, o: Object, e: Effect) {
    Sound(t, e.t, e.outcome) && ObjectOk(e.obj) && SameKind(o.kind, e.obj.kind)
  }

  /** The current thread blocks itself. */
  lemma BlockOk(t: Table)
    requires TableOk(t) && t.current != 0
    ensures SameNames(t.threads, BlockAt(t, CurrentSlot(t)).threads)
    ensures TableOk(BlockAt(t, CurrentSlot(t)).(current := 0))
  {
    BlockCounted(t, CurrentSlot(t));
    LeaveCpu(t, BlockAt(t, CurrentSlot(t)));
  }

  /** A lock that switches away resumes in the retry loop of its mutex. */
  predicate Waits(e: Effect, m: nat) {
    e.outcome.Swap? ==> e.outcome.resume == InLock(m)
  }

  /** A call on object `k` that switches away resumes in its program, or in the
      retry loop of `k` if that is a mutex. */
  predicate Resumable(o: Object, k: nat, e: Effect) {
    e.outcome.Swap? ==> e.outcome.resume.Ret? || (o.kind.Mutex? && e.outcome.resume == InLock(k))
  }

  lemma LockOk(t: Table, mx: Object, m: nat)
    requires TableOk(t) && ObjectOk(mx) && mx.kind.Mutex?
    ensures EffectOk(t, mx, MutexLock(t, mx, m)) && Waits(MutexLock(t, mx, m), m)
  {
    if t.current != 0 { BlockOk(t); }
  }

  lemma RelockOk(t: Table, mx: Object, m: nat)
    requires TableOk(t) && ObjectOk(mx) && mx.kind.Mutex? && t.current != 0
    ensures EffectOk(t, mx, MutexRelock(t, mx, m, CurrentSlot(t))) && Waits(MutexRelock(t, mx, m, CurrentSlot(t)), m)
  {
    BlockOk(t);
  }

  lemma UnlockOk(t: Table, mx: Object, m: nat)
    requires TableOk(t) && ObjectOk(mx) && mx.kind.Mutex?
    ensures EffectOk(t, mx, MutexUnlock(t, mx, m))
  {
    if mx.q.items != [] { UnblockOk(t, mx.q.items[0]); }
  }

  lemma SemWaitOk(t: Table, sm: Object, s: nat)
    requires TableOk(t) && ObjectOk(sm) && sm.kind.Sem?
    ensures EffectOk(t, sm, SemWait(t, sm, s))
  {
    if t.current != 0 { BlockOk(t); }
  }

  lemma SemPostOk(t: Table, sm: Object, s: nat)
    requires TableOk(t) && ObjectOk(sm) && sm.kind.Sem?
    ensures EffectOk(t, sm, SemPost(t, sm, s))
  {
    if sm.q.items != [] { UnblockOk(t, sm.q.items[0]); }
  }

  lemma SignalOk(t: Table, cv: Object, c: nat)
    requires TableOk(t) && ObjectOk(cv) && cv.kind.Cond?
    ensures EffectOk(t, cv, CondSignal(t, cv, c))
  {
    if cv.q.items != [] { UnblockOk(t, cv.q.items[0]); }
  }

  lemma BroadcastOk(t: Table, cv: Object, c: nat)
    requires TableOk(t) && ObjectOk(cv) && cv.kind.Cond?
    ensures EffectOk(t, cv, CondBroadcast(t, cv, c))
  {
    UnblockAllOk(t, cv.q.items);
  }

  lemma PerformOk(t: Table, o: Object, k: nat, call: ObjectCall)
    requires TableOk(t) && ObjectOk(o) && Fits(o.kind, call)
    ensures EffectOk(t, o, Perform(t, o, k, call))
  {
    match call
    case Lock => LockOk(t, o, k);
    case Trylock =>
    case Unlock => UnlockOk(t, o, k);
    case Wait => SemWaitOk(t, o, k);
    case Post => SemPostOk(t, o, k);
    case Signal => SignalOk(t, o, k);
    case Broadcast => BroadcastOk(t, o, k);
    case Destroy =>
  }

  lemma PerformResumable(t: Table, o: Object, k: nat, call: ObjectCall)
    requires Fits(o.kind, call)
    ensures Resumable(o, k, Perform(t, o, k, call))
  {
  }

  lemma {:induction false} RemoveFirstOf(s: seq<nat>, x: nat)
    ensures |RemoveFirst(s, x)| <= |s|
    ensures forall p :: 0 <= p < |RemoveFirst(s, x)| ==> RemoveFirst(s, x)[p] in s
    decreases |s|
  {
    if s == [] || s[0] == x {
    } else {
      RemoveFirstOf(s[1..], x);
    }
  }

  lemma RollbackOk(t: Table, i: nat)
    requires TableOk(t) && t.current != 0 && i == CurrentSlot(t)
    ensures var t1 := BlockAt(t, i); TableOk(WithState(t1, i, Running).(blocked := Dec(t1.blocked)))
    ensures var t1 := BlockAt(t, i);
            SameNames(t.threads, WithState(t1, i, Running).(blocked := Dec(t1.blocked)).threads)
  {
    var t1 := BlockAt(t, i);
    var u := WithState(t1, i, Running).(blocked := Dec(t1.blocked));
    BlockCounted(t, i);
    CountUpdate(t1.threads, i, u.threads[i], Ready);
    CountUpdate(t1.threads, i, u.threads[i], Blocked);
    NamesKeepSlots(t.threads, u.threads, t.current);
  }

  /** A waiter that is already BLOCKED hands the mutex on and leaves. */
  lemma UnlockBlockedOk(t: Table, mx: Object, m: nat)
    requires TableOk(t) && t.current != 0 && mx.kind.Mutex? && ObjectOk(mx)
    ensures var u := MutexUnlock(BlockAt(t, CurrentSlot(t)), mx, m);
            && SameNames(t.threads, u.t.threads) && u.t.nextTid == t.nextTid && u.t.current == t.current
            && TableOk(u.t.(current := 0)) && ObjectOk(u.obj)
  {
    var t1 := BlockAt(t, CurrentSlot(t));
    BlockCounted(t, CurrentSlot(t));
    BlockOk(t);
    if mx.q.items != [] {
      UnblockOk(t1.(current := 0), mx.q.items[0]);
      assert Unblock(t1.(current := 0), mx.q.items[0]) == Unblock(t1, mx.q.items[0]).(current := 0);
    }
  }

  predicate AwaitOk(t: Table, e: WaitEffect) {
    Sound(t, e.t, e.outcome) && ObjectOk(e.cv) && ObjectOk(e.mx)
  }

  lemma AwaitGoesOk(t: Table, cv: Object, mx: Object, c: nat, m: nat)
    requires TableOk(t) && ObjectOk(cv) && ObjectOk(mx) && cv.kind.Cond? && mx.kind.Mutex?
    requires cv.initialized && CurrentSlot(t) < |t.threads| && !Full(cv.q)
    requires MutexUnlock(BlockAt(t, CurrentSlot(t)), mx, m).outcome == Status0(OK)
    ensures AwaitOk(t, CondAwait(t, cv, mx, c, m))
  {
    UnlockBlockedOk(t, mx, m);
  }

  lemma AwaitFailsOk(t: Table, cv: Object, mx: Object, c: nat, m: nat)
    requires TableOk(t) && ObjectOk(cv) && ObjectOk(mx) && cv.kind.Cond? && mx.kind.Mutex?
    requires cv.initialized && CurrentSlot(t) < |t.threads| && !Full(cv.q)
    requires MutexUnlock(BlockAt(t, CurrentSlot(t)), mx, m).outcome != Status0(OK)
    ensures AwaitOk(t, CondAwait(t, cv, mx, c, m))
  {
    RollbackOk(t, CurrentSlot(t));
    RemoveFirstOf(Push(cv.q, CurrentSlot(t)).items, CurrentSlot(t));
  }

  lemma CondWaitOk(t: Table, cv: Object, mx: Object, c: nat, m: nat)
    requires TableOk(t) && ObjectOk(cv) && ObjectOk(mx) && cv.kind.Cond? && mx.kind.Mutex?
    ensures AwaitOk(t, CondAwait(t, cv, mx, c, m))
  {
    var i := CurrentSlot(t);
    if cv.initialized && i < |t.threads| && !Full(cv.q) {
      if MutexUnlock(BlockAt(t, i), mx, m).outcome == Status0(OK) {
        AwaitGoesOk(t, cv, mx, c, m);
      } else {
        AwaitFailsOk(t, cv, mx, c, m);
      }
    }
  }

  lemma AwaitResumes(t: Table, cv: Object, mx: Object, c: nat, m: nat)
    requires cv.kind.Cond? && mx.kind.Mutex?
    ensures var e := CondAwait(t, cv, mx, c, m); e.outcome.Swap? ==> e.outcome.resume == InCond(m)
  {
  }

  // ----- Thread calls -----

  lemma CreateOk(t: Table, priority: nat)
    requires TableOk(t)
    ensures TableOk(CreateThread(t, priority).t) && CreateThread(t, priority).t.current == t.current
  {
    var i := EmptySlot(t.threads);
    if i < |t.threads| {
      var u := CreateThread(t, priority).t;
      CountUpdate(t.threads, i, u.threads[i], Ready);
      CountUpdate(t.threads, i, u.threads[i], Blocked);
      if t.current != 0 {
        var c := CurrentSlot(t);
        assert Ids(u);
        SlotUnique(u, c);
      }
    }
  }

  lemma CancelCounted(t: Table, i: nat)
    requires Counted(t) && i < |t.threads| && Live(t.threads[i])
    ensures var u := SetState(Unblock(t, i), i, Canceled);
            Counted(SetThread(u, i, u.threads[i].(retval := 0)))
  {
    UnblockCounted(t, i);
    var t1 := Unblock(t, i);
    var u := SetState(t1, i, Canceled);
    var th := u.threads[i].(retval := 0);
    assert u.threads[i := th] == t1.threads[i := th];
    CountUpdate(t1.threads, i, th, Ready);
    CountUpdate(t1.threads, i, th, Blocked);
  }

  lemma CancelOk(t: Table, tid: nat)
    requires TableOk(t)
    ensures Sound(t, CancelThread(t, tid).t, Return(CancelThread(t, tid).res))
  {
    if CancelThread(t, tid).res.status == OK {
      var i := FindSlot(t.threads, tid);
      CancelCounted(t, i);
      CancelTable(t, tid);
      CanceledSound(t, CancelThread(t, tid).t, i, CancelThread(t, tid).res);
    }
  }

  lemma CancelTable(t: Table, tid: nat)
    requires CancelThread(t, tid).res.status == OK
    ensures var i, u := FindSlot(t.threads, tid), CancelThread(t, tid).t;
            && u.threads == t.threads[i := t.threads[i].(state := Canceled, retval := 0)]
            && u.nextTid == t.nextTid && u.current == t.current
  {
  }

  lemma CanceledSound(t: Table, u: Table, i: nat, res: Result)
    requires TableOk(t) && i < |t.threads| && Live(t.threads[i]) && Counted(u)
    requires u.threads == t.threads[i := t.threads[i].(state := Canceled, retval := 0)]
    requires u.nextTid == t.nextTid && u.current == t.current
    ensures Sound(t, u, Return(res))
  {
    NamesKeepSlots(t.threads, u.threads, t.current);
  }

  lemma ReleaseOk(t: Table, i: nat)
    requires TableOk(t) && t.current == 0 && i < |t.threads| && Terminal(t.threads[i].state)
    ensures TableOk(Release(t, i))
  {
    CountUpdate(t.threads, i, EMPTY_THREAD, Ready);
    CountUpdate(t.threads, i, EMPTY_THREAD, Blocked);
  }

  lemma YieldOk(t: Table)
    requires TableOk(t) && t.current != 0
    ensures Sound(t, YieldAt(t, CurrentSlot(t)), Swap(Ret(Result(OK, 0))))
  {
    var i := CurrentSlot(t);
    CountUpdate(t.threads, i, t.threads[i].(state := Ready), Ready);
    CountUpdate(t.threads, i, t.threads[i].(state := Ready), Blocked);
    LeaveCpu(t, YieldAt(t, i));
  }

  lemma ExitOk(t: Table, v: nat)
    requires TableOk(t) && t.current != 0
    ensures var u := ExitAt(t, CurrentSlot(t), v); TableOk(u) && u.current == 0 && SameNames(t.threads, u.threads)
  {
    var i := CurrentSlot(t);
    var u := ExitAt(t, i, v);
    CountUpdate(t.threads, i, u.threads[i], Ready);
    CountUpdate(t.threads, i, u.threads[i], Blocked);
    LeaveCpu(t, u);
  }

  lemma DispatchOk(t: Table, i: nat)
    requires TableOk(t) && t.current == 0 && i < |t.threads| && t.threads[i].state == Ready
    ensures TableOk(DispatchAt(t, i)) && SameNames(t.threads, DispatchAt(t, i).threads)
    ensures DispatchAt(t, i).current != 0 && CurrentSlot(DispatchAt(t, i)) == i
  {
    var u := DispatchAt(t, i);
    CountUpdate(t.threads, i, u.threads[i], Ready);
    CountUpdate(t.threads, i, u.threads[i], Blocked);
    SlotUnique(t, i);
    NamesKeepSlots(t.threads, u.threads, t.threads[i].tid);
  }

  // ----- The step -----

  predicate SameKinds(a: seq<Object>, b: seq<Object>) {
    |a| == |b| && forall k :: 0 <= k < |a| ==> SameKind(a[k].kind, b[k].kind)
  }

  lemma SoundLeave(w: World, u: Table, objs: seq<Object>, o: Outcome)
    requires Wf(w) && Sound(w.t, u, o)
    requires SameKinds(w.objs, objs) && forall k :: 0 <= k < |objs| ==> ObjectOk(objs[k])
    requires o.Swap? ==> ResumeOk(objs, o.resume)
    requires w.t.current == 0 ==> w.main.MRet?
    ensures Wf(Leave(w.(t := u, objs := objs), w.t.current, Me(w), o))
  {
  }

  predicate Keeps(w: World, n: Next) {
    Wf(n.w) && SameKinds(w.objs, n.w.objs)
  }

  lemma EffectStepOk(w: World, k: nat, e: Effect)
    requires Wf(w) && k < |w.objs| && EffectOk(w.t, w.objs[k], e)
    requires e.outcome.Swap? ==> ResumeOk(w.objs, e.outcome.resume)
    requires w.t.current == 0 ==> w.main.MRet?
    ensures Keeps(w, ApplyEffect(w, k, e))
  {
    var objs := w.objs[k := e.obj];
    assert forall r :: ResumeOk(w.objs, r) ==> ResumeOk(objs, r);
    SoundLeave(w, e.t, objs, e.outcome);
  }

  lemma CreateStepOk(w: World, priority: nat)
    requires Wf(w) && Enabled(w, Call(Create(priority)))
    ensures Keeps(w, CreateCall(w, priority))
  {
    CreateOk(w.t, priority);
  }

  lemma YieldStepOk(w: World)
    requires Wf(w) && Enabled(w, Call(Yield))
    ensures Keeps(w, YieldCall(w))
  {
    if w.t.current != 0 {
      YieldOk(w.t);
      SoundLeave(w, YieldAt(w.t, Me(w)), w.objs, Swap(Ret(Result(OK, 0))));
    }
  }

  lemma ExitStepOk(w: World, v: nat)
    requires Wf(w) && Enabled(w, Call(Exit(v)))
    ensures Keeps(w, StepCall(w, Exit(v)))
  {
    ExitOk(w.t, v);
  }

  lemma JoinStepOk(w: World, tid: nat)
    requires Wf(w) && Enabled(w, Call(Join(tid)))
    ensures Keeps(w, JoinCall(w, tid))
  {
    var i := FindSlot(w.t.threads, tid);
    if i < |w.t.threads| && Terminal(w.t.threads[i].state) { ReleaseOk(w.t, i); }
  }

  lemma AwaitStepOk(w: World, c: nat, m: nat, e: WaitEffect)
    requires Wf(w) && c < |w.objs| && m < |w.objs| && w.objs[c].kind.Cond? && w.objs[m].kind.Mutex?
    requires AwaitOk(w.t, e) && e.cv.kind.Cond? && e.mx.kind.Mutex? && (w.t.current == 0 ==> w.main.MRet?)
    requires e.outcome.Swap? ==> e.outcome.resume == InCond(m)
    ensures var objs := w.objs[c := e.cv][m := e.mx];
            Wf(Leave(w.(t := e.t, objs := objs), w.t.current, Me(w), e.outcome)) && SameKinds(w.objs, objs)
  {
    SoundLeave(w, e.t, w.objs[c := e.cv][m := e.mx], e.outcome);
  }

  lemma CondWaitStepOk(w: World, c: nat, m: nat)
    requires Wf(w) && Enabled(w, Call(CondWait(c, m)))
    ensures Keeps(w, StepCall(w, CondWait(c, m)))
  {
    CondWaitOk(w.t, w.objs[c], w.objs[m], c, m);
    AwaitResumes(w.t, w.objs[c], w.objs[m], c, m);
    AwaitStepOk(w, c, m, CondAwait(w.t, w.objs[c], w.objs[m], c, m));
  }

  lemma CancelStepOk(w: World, tid: nat)
    requires Wf(w) && Enabled(w, Call(Cancel(tid)))
    ensures Keeps(w, StepCall(w, Cancel(tid)))
  {
    CancelOk(w.t, tid);
    SoundLeave(w, CancelThread(w.t, tid).t, w.objs, Return(CancelThread(w.t, tid).res));
  }

  lemma InitStepOk(w: World, k: nat, count: nat)
    requires Wf(w) && Enabled(w, Call(Init(k, count)))
    ensures Keeps(w, StepCall(w, Init(k, count)))
  {
    EffectStepOk(w, k, Effect(w.t, Initial(w.objs[k].kind, count), Status0(OK), []));
  }

  lemma OnStepOk(w: World, k: nat, call: ObjectCall)
    requires Wf(w) && Enabled(w, Call(On(k, call)))
    ensures Keeps(w, StepCall(w, On(k, call)))
  {
    PerformOk(w.t, w.objs[k], k, call);
    PerformResumable(w.t, w.objs[k], k, call);
    EffectStepOk(w, k, Perform(w.t, w.objs[k], k, call));
  }

  lemma StepCallOk(w: World, op: Op)
    requires Wf(w) && Enabled(w, Call(op))
    ensures Keeps(w, StepCall(w, op))
  {
    match op
    case Create(priority) => CreateStepOk(w, priority);
    case Yield => YieldStepOk(w);
    case Exit(value) => ExitStepOk(w, value);
    case Join(tid) => JoinStepOk(w, tid);
    case Cancel(tid) => CancelStepOk(w, tid);
    case Init(k, count) => InitStepOk(w, k, count);
    case On(k, call) => OnStepOk(w, k, call);
    case CondWait(c, m) => CondWaitStepOk(w, c, m);
  }

  lemma ReapOk(w: World)
    requires Wf(w) && Enabled(w, Continue) && w.t.current == 0
    ensures Keeps(w, Reap(w, w.main.tid))
  {
    SlotUnique(w.t, w.main.slot);
    ReleaseOk(w.t, w.main.slot);
  }

  lemma ContinueOk(w: World)
    requires Wf(w) && Enabled(w, Continue)
    ensures Keeps(w, StepContinue(w))
  {
    if w.t.current == 0 {
      ReapOk(w);
    } else {
      var m := w.ctl[Me(w)].m;
      if w.ctl[Me(w)].InLock? {
        RelockOk(w.t, w.objs[m], m);
        EffectStepOk(w, m, MutexRelock(w.t, w.objs[m], m, Me(w)));
      } else {
        LockOk(w.t, w.objs[m], m);
        EffectStepOk(w, m, MutexLock(w.t, w.objs[m], m));
      }
    }
  }

  /** Every step of the machine keeps the accounting, whatever the program
      does and whomever the scheduler picks. */
  lemma StepOk(w: World, mv: Move)
    requires Wf(w) && Enabled(w, mv)
    ensures Wf(Step(w, mv).w) && SameKinds(w.objs, Step(w, mv).w.objs)
  {
    match mv
    case Call(op) => StepCallOk(w, op);
    case Continue => ContinueOk(w);
    case Sched(choice) => if choice.Some? { DispatchOk(w.t, choice.value); }
  }

  // ----- Whole runs -----

  lemma {:induction false} RunOk(w: World, mvs: seq<Move>)
    requires Wf(w) && Runs(w, mvs)
    ensures Wf(Final(w, mvs)) && SameKinds(w.objs, Final(w, mvs).objs)
    decreases |mvs|
  {
    if mvs == [] {
    } else {
      StepOk(w, mvs[0]);
      RunOk(Step(w, mvs[0]).w, mvs[1..]);
    }
  }

  lemma StartWf(w: World)
    requires Start(w)
    ensures Wf(w)
  {
    CountZero(w.t.threads, Ready);
    CountZero(w.t.threads, Blocked);
  }

  /** After any run from the start, cancellation included, the incremental
      counters equal a recount, so that the guards before their decrements
      never hold back a decrement that is due: a READY slot is on the `runnable`
      counter and a BLOCKED one on `blocked`. */
  lemma CountersAgree(w: World, mvs: seq<Move>)
    requires Start(w) && Runs(w, mvs)
    ensures var t := Final(w, mvs).t;
            && t.runnable == Count(t.threads, Ready) && t.blocked == Count(t.threads, Blocked)
            && forall i :: 0 <= i < |t.threads| ==>
                 (t.threads[i].state == Ready ==> t.runnable > 0) && (t.threads[i].state == Blocked ==> t.blocked > 0)
  {
    StartWf(w);
    RunOk(w, mvs);
    var t := Final(w, mvs).t;
    forall i | 0 <= i < |t.threads|
      ensures (t.threads[i].state == Ready ==> t.runnable > 0) && (t.threads[i].state == Blocked ==> t.blocked > 0)
    {
      CountPositive(t.threads, i, t.threads[i].state);
    }
  }
}
