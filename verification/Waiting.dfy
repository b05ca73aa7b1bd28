/** Wait queues over whole runs: a thread is BLOCKED exactly when its slot is
    in one wait queue, once; an unlocked mutex with waiters always has a woken
    thread on its way to retest it; nobody waits at a positive semaphore. */
module Waiting {
  import opened Types
  import opened Threads
  import opened Sync
  import opened Machine
  import opened Accounting

  /** How often slot `x` is queued, over all wait queues. */
  function Occ(objs: seq<Object>, x: nat): nat {
    if objs == [] then 0 else Occ(objs[..|objs| - 1], x) + multiset(objs[|objs| - 1].q.items)[x]
  }

  lemma {:induction false} OccUpdate(objs: seq<Object>, k: nat, o: Object, x: nat)
    requires k < |objs|
    ensures Occ(objs[k := o], x) + multiset(objs[k].q.items)[x] == Occ(objs, x) + multiset(o.q.items)[x]
    decreases |objs|
  {
    var n := |objs| - 1;
    if k == n {
      assert objs[k := o][..n] == objs[..n];
    } else {
      assert objs[k := o][..n] == objs[..n][k := o];
      OccUpdate(objs[..n], k, o, x);
    }
  }

  predicate IsBlocked(ts: seq<Thread>, i: nat) {
    i < |ts| && ts[i].state == Blocked
  }

  /** BLOCKED slots are queued once in all queues together, others never. */
  ghost predicate Exact(ts: seq<Thread>, objs: seq<Object>) {
    forall x: nat :: Occ(objs, x) == One(IsBlocked(ts, x))
  }

  /** The resume point that a waiter of object `k` must have. */
  predicate AtHome(o: Object, k: nat, r: Resume) {
    match o.kind
    case Mutex(_, _) => r == InLock(k)
    case Sem(_) => r.Ret?
    case Cond => r.InCond?
  }

  predicate Homes(ctl: seq<Resume>, objs: seq<Object>) {
    forall k, p :: 0 <= k < |objs| && 0 <= p < |objs[k].q.items| ==>
      objs[k].q.items[p] < |ctl| && AtHome(objs[k], k, ctl[objs[k].q.items[p]])
  }

  /** Slot `i` was dequeued from mutex `k` and has not retested it yet. */
  predicate Pending(ts: seq<Thread>, ctl: seq<Resume>, k: nat, i: nat) {
    i < |ts| && i < |ctl| && ts[i].state in {Ready, Running} && ctl[i] == InLock(k)
  }

  /** A free mutex somebody waits for: the state a lost wakeup would leave. */
  predicate Abandoned(o: Object) {
    o.kind.Mutex? && !o.kind.locked && o.q.items != []
  }

  ghost predicate NoLostWakeup(ts: seq<Thread>, ctl: seq<Resume>, objs: seq<Object>) {
    forall k :: 0 <= k < |objs| && Abandoned(objs[k]) ==> exists i: nat :: Pending(ts, ctl, k, i)
  }

  predicate Tight(o: Object) {
    o.kind.Sem? && o.kind.count > 0 ==> o.q.items == []
  }

  predicate SemsTight(objs: seq<Object>) {
    forall k :: 0 <= k < |objs| ==> Tight(objs[k])
  }

  ghost predicate QueueInv(ts: seq<Thread>, ctl: seq<Resume>, objs: seq<Object>) {
    |ts| == |ctl| && Exact(ts, objs) && Homes(ctl, objs) && NoLostWakeup(ts, ctl, objs) && SemsTight(objs)
  }

  ghost predicate WaitOk(w: World) {
    QueueInv(w.t.threads, w.ctl, w.objs)
  }

  // ----- Primitive changes -----

  lemma QueuedIsBlocked(ts: seq<Thread>, objs: seq<Object>, k: nat, p: nat)
    requires Exact(ts, objs) && k < |objs| && p < |objs[k].q.items|
    ensures IsBlocked(ts, objs[k].q.items[p])
    ensures multiset(objs[k].q.items)[objs[k].q.items[p]] == 1
  {
    var x := objs[k].q.items[p];
    OccUpdate(objs, k, objs[k].(q := ZERO_QUEUE), x);
    assert x in multiset(objs[k].q.items);
    assert Occ(objs, x) == One(IsBlocked(ts, x));
  }

  /** Slot `i` blocks and joins the queue of object `k`. */
  lemma Enqueue(ts: seq<Thread>, ctl: seq<Resume>, objs: seq<Object>, k: nat, i: nat, r: Resume)
    requires QueueInv(ts, ctl, objs) && k < |objs| && i < |ts| && ts[i].state != Blocked
    requires AtHome(objs[k], k, r)
    requires objs[k].kind.Mutex? ==> objs[k].kind.locked
    requires objs[k].kind.Sem? ==> objs[k].kind.count == 0
    requires forall j :: 0 <= j < |objs| && Abandoned(objs[j]) ==> ctl[i] != InLock(j)
    ensures var o := objs[k].(q := objs[k].q.(items := objs[k].q.items + [i]));
            QueueInv(ts[i := ts[i].(state := Blocked)], ctl[i := r], objs[k := o])
  {
    var o := objs[k].(q := objs[k].q.(items := objs[k].q.items + [i]));
    var ts', ctl', objs' := ts[i := ts[i].(state := Blocked)], ctl[i := r], objs[k := o];
    forall x: nat ensures Occ(objs', x) == One(IsBlocked(ts', x)) {
      OccUpdate(objs, k, o, x);
      assert Occ(objs, x) == One(IsBlocked(ts, x));
    }
    forall j, p | 0 <= j < |objs'| && 0 <= p < |objs'[j].q.items|
      ensures objs'[j].q.items[p] < |ctl'| && AtHome(objs'[j], j, ctl'[objs'[j].q.items[p]])
    {
      if p < |objs[j].q.items| { QueuedIsBlocked(ts, objs, j, p); }
    }
    forall j | 0 <= j < |objs'| && Abandoned(objs'[j])
      ensures exists x: nat :: Pending(ts', ctl', j, x)
    {
      var x: nat :| Pending(ts, ctl, j, x);
      assert Pending(ts', ctl', j, x);
    }
  }

  /** The head of queue `k` is dequeued and becomes READY; object `k` may
      change in other fields. */
  lemma Dequeue(ts: seq<Thread>, ctl: seq<Resume>, objs: seq<Object>, k: nat, o: Object)
    requires QueueInv(ts, ctl, objs) && k < |objs| && objs[k].q.items != []
    requires SameKind(objs[k].kind, o.kind) && o.q.items == objs[k].q.items[1..] && Tight(o)
    ensures var x := objs[k].q.items[0];
            IsBlocked(ts, x) && QueueInv(ts[x := ts[x].(state := Ready)], ctl, objs[k := o])
  {
    var x := objs[k].q.items[0];
    QueuedIsBlocked(ts, objs, k, 0);
    var ts', objs' := ts[x := ts[x].(state := Ready)], objs[k := o];
    assert objs[k].q.items == [x] + o.q.items;
    forall y: nat ensures Occ(objs', y) == One(IsBlocked(ts', y)) {
      OccUpdate(objs, k, o, y);
      assert Occ(objs, y) == One(IsBlocked(ts, y));
    }
    forall j, p | 0 <= j < |objs'| && 0 <= p < |objs'[j].q.items|
      ensures objs'[j].q.items[p] < |ctl| && AtHome(objs'[j], j, ctl[objs'[j].q.items[p]])
    {
      if j == k { assert objs'[j].q.items[p] == objs[k].q.items[p + 1]; }
    }
    forall j | 0 <= j < |objs'| && Abandoned(objs'[j])
      ensures exists x: nat :: Pending(ts', ctl, j, x)
    {
      if j == k {
        assert Pending(ts', ctl, k, x);
      } else {
        var y: nat :| Pending(ts, ctl, j, y);
        assert Pending(ts', ctl, j, y);
      }
    }
  }

  /** Object `k` changes without touching its queue or freeing it. */
  lemma ObjectChange(ts: seq<Thread>, ctl: seq<Resume>, objs: seq<Object>, k: nat, o: Object)
    requires QueueInv(ts, ctl, objs) && k < |objs|
    requires SameKind(objs[k].kind, o.kind) && o.q.items == objs[k].q.items && Tight(o)
    requires Abandoned(o) ==> Abandoned(objs[k])
    ensures QueueInv(ts, ctl, objs[k := o])
  {
    var objs' := objs[k := o];
    forall x: nat ensures Occ(objs', x) == One(IsBlocked(ts, x)) {
      OccUpdate(objs, k, o, x);
      assert Occ(objs, x) == One(IsBlocked(ts, x));
    }
    forall j, p | 0 <= j < |objs'| && 0 <= p < |objs'[j].q.items|
      ensures objs'[j].q.items[p] < |ctl| && AtHome(objs'[j], j, ctl[objs'[j].q.items[p]])
    {
      assert objs'[j].q.items[p] == objs[j].q.items[p];
    }
  }

  /** A slot that is BLOCKED neither before nor after changes freely, unless it
      was the only woken thread of an abandoned mutex. */
  lemma ThreadChange(ts: seq<Thread>, ctl: seq<Resume>, objs: seq<Object>, i: nat, th: Thread, r: Resume)
    requires QueueInv(ts, ctl, objs) && i < |ts| && ts[i].state != Blocked && th.state != Blocked
    requires forall j :: 0 <= j < |objs| && Abandoned(objs[j]) && Pending(ts, ctl, j, i) ==>
               || (r == InLock(j) && th.state in {Ready, Running})
               || exists x: nat :: x != i && Pending(ts, ctl, j, x)
    ensures QueueInv(ts[i := th], ctl[i := r], objs)
  {
    var ts', ctl' := ts[i := th], ctl[i := r];
    forall x: nat ensures Occ(objs, x) == One(IsBlocked(ts', x)) {
      assert Occ(objs, x) == One(IsBlocked(ts, x));
    }
    forall j, p | 0 <= j < |objs| && 0 <= p < |objs[j].q.items|
      ensures objs[j].q.items[p] < |ctl'| && AtHome(objs[j], j, ctl'[objs[j].q.items[p]])
    {
      QueuedIsBlocked(ts, objs, j, p);
    }
    forall j | 0 <= j < |objs| && Abandoned(objs[j])
      ensures exists x: nat :: Pending(ts', ctl', j, x)
    {
      if x: nat :| x != i && Pending(ts, ctl, j, x) {
        assert Pending(ts', ctl', j, x);
      } else {
        var x: nat :| Pending(ts, ctl, j, x);
        assert Pending(ts', ctl', j, x);
      }
    }
  }

  lemma {:induction false} Drain(t: Table, ctl: seq<Resume>, objs: seq<Object>, k: nat)
    requires QueueInv(t.threads, ctl, objs) && k < |objs| && objs[k].kind.Cond?
    ensures var o := objs[k].(q := objs[k].q.(items := []));
            QueueInv(UnblockAll(t, objs[k].q.items).threads, ctl, objs[k := o])
    decreases |objs[k].q.items|
  {
    var ws := objs[k].q.items;
    var o := objs[k].(q := objs[k].q.(items := []));
    if ws == [] {
      assert objs[k := o] == objs;
    } else {
      var o1 := objs[k].(q := Pop(objs[k].q));
      Dequeue(t.threads, ctl, objs, k, o1);
      Drain(Unblock(t, ws[0]), ctl, objs[k := o1], k);
      assert objs[k := o1][k := o] == objs[k := o];
    }
  }

  // ----- Calls -----

  /** The current context is not a woken thread of an abandoned mutex. */
  predicate Detached(w: World) {
    w.t.current != 0 ==>
      && Me(w) < |w.ctl| == |w.t.threads| && w.t.threads[Me(w)].state != Blocked
      && (w.ctl[Me(w)].InLock? && w.ctl[Me(w)].m < |w.objs| ==> !Abandoned(w.objs[w.ctl[Me(w)].m]))
  }

  /** A call returns `res` to the current context. */
  lemma Returned(w: World, res: Result)
    requires WaitOk(w) && Detached(w)
    ensures WaitOk(Leave(w, w.t.current, Me(w), Return(res)))
  {
    if w.t.current != 0 {
      var i := Me(w);
      ThreadChange(w.t.threads, w.ctl, w.objs, i, w.t.threads[i], Ret(res));
      assert w.t.threads[i := w.t.threads[i]] == w.t.threads;
    }
  }

  /** Only object `k` changes, not its queue. */
  lemma Quiet(w: World, k: nat, e: Effect)
    requires Wf(w) && WaitOk(w) && k < |w.objs| && e.t == w.t && e.outcome.Return?
    requires SameKind(w.objs[k].kind, e.obj.kind) && e.obj.q.items == w.objs[k].q.items && Tight(e.obj)
    requires Abandoned(e.obj) ==> Abandoned(w.objs[k])
    requires Detached(w.(objs := w.objs[k := e.obj]))
    ensures WaitOk(ApplyEffect(w, k, e).w)
  {
    ObjectChange(w.t.threads, w.ctl, w.objs, k, e.obj);
    Returned(w.(objs := w.objs[k := e.obj]), e.outcome.res);
  }

  /** The current thread blocks on object `k`. */
  lemma Blocks(w: World, k: nat, e: Effect)
    requires Wf(w) && WaitOk(w) && k < |w.objs| && w.t.current != 0 && Detached(w)
    requires e.t == BlockAt(w.t, Me(w)) && e.outcome.Swap? && !Full(w.objs[k].q)
    requires e.obj == w.objs[k].(q := Push(w.objs[k].q, Me(w)))
    requires AtHome(w.objs[k], k, e.outcome.resume)
    requires w.objs[k].kind.Mutex? ==> w.objs[k].kind.locked
    requires w.objs[k].kind.Sem? ==> w.objs[k].kind.count == 0
    ensures WaitOk(ApplyEffect(w, k, e).w)
  {
    Enqueue(w.t.threads, w.ctl, w.objs, k, Me(w), e.outcome.resume);
  }

  /** The head of the queue of object `k` is woken. */
  lemma Wakes(w: World, k: nat, e: Effect)
    requires Wf(w) && WaitOk(w) && k < |w.objs| && w.objs[k].q.items != [] && Detached(w)
    requires w.t.current != 0 ==> w.ctl[Me(w)].Ret?
    requires e.t == Unblock(w.t, w.objs[k].q.items[0]) && e.outcome.Return?
    requires SameKind(w.objs[k].kind, e.obj.kind) && e.obj.q.items == w.objs[k].q.items[1..] && Tight(e.obj)
    ensures WaitOk(ApplyEffect(w, k, e).w)
  {
    Dequeue(w.t.threads, w.ctl, w.objs, k, e.obj);
    UnblockOk(w.t, w.objs[k].q.items[0]);
    NamesKeepSlots(w.t.threads, e.t.threads, w.t.current);
    Returned(w.(t := e.t, objs := w.objs[k := e.obj]), e.outcome.res);
  }

  lemma BroadcastKept(w: World, k: nat)
    requires Wf(w) && WaitOk(w) && Enabled(w, Call(On(k, Broadcast)))
    ensures WaitOk(Step(w, Call(On(k, Broadcast))).w)
  {
    var e := CondBroadcast(w.t, w.objs[k], k);
    if w.objs[k].initialized {
      Drain(w.t, w.ctl, w.objs, k);
      UnblockAllOk(w.t, w.objs[k].q.items);
      NamesKeepSlots(w.t.threads, e.t.threads, w.t.current);
      Returned(w.(t := e.t, objs := w.objs[k := e.obj]), e.outcome.res);
    } else {
      Quiet(w, k, e);
    }
  }

  lemma PerformKept(w: World, k: nat, call: ObjectCall)
    requires Wf(w) && WaitOk(w) && Enabled(w, Call(On(k, call)))
    ensures WaitOk(Step(w, Call(On(k, call))).w)
  {
    var e := Perform(w.t, w.objs[k], k, call);
    assert Tight(w.objs[k]);
    if call == Broadcast {
      BroadcastKept(w, k);
    } else if e.outcome.Swap? {
      Blocks(w, k, e);
    } else if e.obj.q.items != w.objs[k].q.items {
      Wakes(w, k, e);
    } else {
      Quiet(w, k, e);
    }
  }

  lemma CondWaitKept(w: World, c: nat, m: nat)
    requires Wf(w) && WaitOk(w) && Enabled(w, Call(CondWait(c, m)))
    ensures WaitOk(Step(w, Call(CondWait(c, m))).w)
  {
    var e := CondAwait(w.t, w.objs[c], w.objs[m], c, m);
    var i := Me(w);
    if e.outcome.Swap? {
      Enqueue(w.t.threads, w.ctl, w.objs, c, i, InCond(m));
      var t1 := BlockAt(w.t, i);
      var objs1 := w.objs[c := e.cv];
      if w.objs[m].q.items != [] {
        Dequeue(t1.threads, w.ctl[i := InCond(m)], objs1, m, e.mx);
      } else {
        ObjectChange(t1.threads, w.ctl[i := InCond(m)], objs1, m, e.mx);
      }
    } else {
      CondFails(w, c, m);
    }
  }

  lemma ContinueKept(w: World)
    requires Wf(w) && WaitOk(w) && Enabled(w, Continue) && w.t.current != 0
    ensures WaitOk(Step(w, Continue).w)
  {
    var m := w.ctl[Me(w)].m;
    var e := if w.ctl[Me(w)].InLock? then MutexRelock(w.t, w.objs[m], m, Me(w)) else MutexLock(w.t, w.objs[m], m);
    if e.outcome.Swap? {
      Blocks(w, m, e);
    } else {
      Quiet(w, m, e);
    }
  }

  lemma {:induction false} RemoveLast(s: seq<nat>, x: nat)
    requires x !in s
    ensures RemoveFirst(s + [x], x) == s
    decreases |s|
  {
    if s == [] {
    } else {
      assert (s + [x])[1..] == s[1..] + [x];
      RemoveLast(s[1..], x);
    }
  }

  lemma CondFails(w: World, c: nat, m: nat)
    requires Wf(w) && WaitOk(w) && Enabled(w, Call(CondWait(c, m)))
    requires CondAwait(w.t, w.objs[c], w.objs[m], c, m).outcome.Return?
    ensures WaitOk(Step(w, Call(CondWait(c, m))).w)
  {
    var e := CondAwait(w.t, w.objs[c], w.objs[m], c, m);
    if e.t == w.t && e.cv == w.objs[c] {
      assert w.objs[c := e.cv][m := e.mx] == w.objs;
      Returned(w, e.outcome.res);
    } else {
      var i := Me(w);
      forall p | 0 <= p < |w.objs[c].q.items| ensures w.objs[c].q.items[p] != i {
        QueuedIsBlocked(w.t.threads, w.objs, c, p);
      }
      RemoveLast(w.objs[c].q.items, i);
      assert w.objs[c := e.cv][m := e.mx] == w.objs;
      assert e.t.threads == w.t.threads[i := w.t.threads[i].(state := Running)];
      ThreadChange(w.t.threads, w.ctl, w.objs, i, e.t.threads[i], Ret(e.outcome.res));
    }
  }

  lemma CreateKept(w: World, priority: nat)
    requires Wf(w) && WaitOk(w) && Enabled(w, Call(Create(priority)))
    ensures WaitOk(CreateCall(w, priority).w)
  {
    CreateOk(w.t, priority);
    var c := CreateThread(w.t, priority);
    var i := EmptySlot(w.t.threads);
    if i < |w.t.threads| {
      ThreadChange(w.t.threads, w.ctl, w.objs, i, c.t.threads[i], Ret(Result(OK, 0)));
      var u := w.(t := c.t, ctl := w.ctl[i := Ret(Result(OK, 0))]);
      if w.t.current != 0 { SlotUnique(c.t, Me(w)); }
      Returned(u, c.res);
    } else {
      Returned(w, c.res);
    }
  }

  lemma ReapKept(w: World, tid: nat)
    requires WaitOk(w)
    requires var i := FindSlot(w.t.threads, tid); i < |w.t.threads| ==> Terminal(w.t.threads[i].state)
    ensures WaitOk(Reap(w, tid).w)
  {
    var i := FindSlot(w.t.threads, tid);
    if i < |w.t.threads| {
      ThreadChange(w.t.threads, w.ctl, w.objs, i, EMPTY_THREAD, w.ctl[i]);
      assert w.ctl[i := w.ctl[i]] == w.ctl;
    }
  }

  // ----- Cancellation -----

  /** Slot `i` is the only woken thread of some abandoned mutex. */
  ghost predicate SoleRescuer(w: World, i: nat) {
    exists j :: 0 <= j < |w.objs| && Abandoned(w.objs[j]) && Pending(w.t.threads, w.ctl, j, i) &&
      forall x: nat :: Pending(w.t.threads, w.ctl, j, x) ==> x == i
  }

  /** Two calls can do harm: a cancellation that takes effect on a BLOCKED
      thread or on the last hope of an abandoned mutex, and an `init` of an
      object that still has waiters. */
  ghost predicate Harmless(w: World, mv: Move) {
    mv.Call? ==>
      match mv.op
      case Cancel(tid) =>
        var i := FindSlot(w.t.threads, tid);
        tid != 0 && i < |w.t.threads| && !Terminal(w.t.threads[i].state) ==>
          w.t.threads[i].state != Blocked && !SoleRescuer(w, i)
      case Init(k, _) => k < |w.objs| ==> w.objs[k].q.items == []
      case _ => true
  }

  lemma CancelKept(w: World, tid: nat)
    requires Wf(w) && WaitOk(w) && Enabled(w, Call(Cancel(tid))) && Harmless(w, Call(Cancel(tid)))
    ensures WaitOk(Step(w, Call(Cancel(tid))).w)
  {
    var c := CancelThread(w.t, tid);
    if c.res.status == OK {
      var i := FindSlot(w.t.threads, tid);
      CancelTable(w.t, tid);
      CancelOk(w.t, tid);
      forall j | 0 <= j < |w.objs| && Abandoned(w.objs[j]) && Pending(w.t.threads, w.ctl, j, i)
        ensures exists x: nat :: x != i && Pending(w.t.threads, w.ctl, j, x)
      {
        assert !SoleRescuer(w, i);
      }
      ThreadChange(w.t.threads, w.ctl, w.objs, i, c.t.threads[i], w.ctl[i]);
      assert w.ctl[i := w.ctl[i]] == w.ctl;
      NamesKeepSlots(w.t.threads, c.t.threads, w.t.current);
      Returned(w.(t := c.t), c.res);
    } else {
      Returned(w, c.res);
    }
  }

  /** Exactly when a cancellation keeps the wait queues sound. A cancelled
      BLOCKED thread leaves a stale queue entry behind; a cancelled woken thread
      takes the wakeup of its mutex with it. */
  lemma CancelExactly(w: World, tid: nat)
    requires Wf(w) && WaitOk(w) && Enabled(w, Call(Cancel(tid)))
    ensures WaitOk(Step(w, Call(Cancel(tid))).w) <==> Harmless(w, Call(Cancel(tid)))
  {
    var mv := Call(Cancel(tid));
    if Harmless(w, mv) {
      CancelKept(w, tid);
    } else {
      var i := FindSlot(w.t.threads, tid);
      var u := Step(w, mv).w;
      CancelTable(w.t, tid);
      assert u.t.threads == w.t.threads[i := w.t.threads[i].(state := Canceled, retval := 0)];
      if w.t.threads[i].state == Blocked {
        assert Occ(w.objs, i) == One(IsBlocked(w.t.threads, i));
        assert !IsBlocked(u.t.threads, i);
      } else {
        var j :| 0 <= j < |w.objs| && Abandoned(w.objs[j]) && Pending(w.t.threads, w.ctl, j, i) &&
          forall x: nat :: Pending(w.t.threads, w.ctl, j, x) ==> x == i;
        forall x: nat ensures !Pending(u.t.threads, u.ctl, j, x) {
          if x != i && Pending(u.t.threads, u.ctl, j, x) {
            assert Pending(w.t.threads, w.ctl, j, x);
          }
        }
        assert Abandoned(u.objs[j]);
      }
    }
  }

  /** Exactly when re-initialising an object keeps the wait queues sound. */
  lemma InitExactly(w: World, k: nat, count: nat)
    requires Wf(w) && WaitOk(w) && Enabled(w, Call(Init(k, count)))
    ensures WaitOk(Step(w, Call(Init(k, count))).w) <==> Harmless(w, Call(Init(k, count)))
  {
    var o := Initial(w.objs[k].kind, count);
    if w.objs[k].q.items == [] {
      Quiet(w, k, Effect(w.t, o, Status0(OK), []));
    } else {
      var x := w.objs[k].q.items[0];
      QueuedIsBlocked(w.t.threads, w.objs, k, 0);
      assert Occ(w.objs, x) == One(IsBlocked(w.t.threads, x));
      OccUpdate(w.objs, k, o, x);
    }
  }

  // ----- The step and the run -----

  lemma CallKept(w: World, op: Op)
    requires Wf(w) && WaitOk(w) && Enabled(w, Call(op)) && Harmless(w, Call(op))
    ensures WaitOk(Step(w, Call(op)).w)
  {
    match op
    case Create(priority) => CreateKept(w, priority);
    case Yield =>
      if w.t.current != 0 {
        var i := Me(w);
        ThreadChange(w.t.threads, w.ctl, w.objs, i, w.t.threads[i].(state := Ready), Ret(Result(OK, 0)));
      }
    case Exit(value) =>
      var i := Me(w);
      ThreadChange(w.t.threads, w.ctl, w.objs, i, ExitAt(w.t, i, value).threads[i], Ret(Result(OK, 0)));
    case Join(tid) =>
      var i := FindSlot(w.t.threads, tid);
      if i < |w.t.threads| && Terminal(w.t.threads[i].state) { ReapKept(w, tid); }
    case Cancel(tid) => CancelKept(w, tid);
    case Init(k, count) => InitExactly(w, k, count);
    case On(k, call) => PerformKept(w, k, call);
    case CondWait(c, m) => CondWaitKept(w, c, m);
  }

  lemma StepKept(w: World, mv: Move)
    requires Wf(w) && WaitOk(w) && Enabled(w, mv) && Harmless(w, mv)
    ensures WaitOk(Step(w, mv).w)
  {
    match mv
    case Call(op) => CallKept(w, op);
    case Continue =>
      if w.t.current == 0 {
        SlotUnique(w.t, w.main.slot);
        ReapKept(w, w.main.tid);
      } else {
        ContinueKept(w);
      }
    case Sched(choice) =>
      if choice.Some? {
        var i := choice.value;
        ThreadChange(w.t.threads, w.ctl, w.objs, i, w.t.threads[i].(state := Running), w.ctl[i]);
        assert w.ctl[i := w.ctl[i]] == w.ctl;
      }
  }

  ghost predicate HarmlessRun(w: World, mvs: seq<Move>)
    requires Runs(w, mvs)
    decreases |mvs|
  {
    mvs == [] || (Harmless(w, mvs[0]) && HarmlessRun(Step(w, mvs[0]).w, mvs[1..]))
  }

  lemma {:induction false} RunKept(w: World, mvs: seq<Move>)
    requires Wf(w) && WaitOk(w) && Runs(w, mvs) && HarmlessRun(w, mvs)
    ensures Wf(Final(w, mvs)) && WaitOk(Final(w, mvs))
    decreases |mvs|
  {
    if mvs == [] {
    } else {
      StepOk(w, mvs[0]);
      StepKept(w, mvs[0]);
      RunKept(Step(w, mvs[0]).w, mvs[1..]);
    }
  }

  lemma StartOk(w: World)
    requires Start(w)
    ensures Wf(w) && WaitOk(w)
  {
    StartWf(w);
    forall x: nat ensures Occ(w.objs, x) == 0 { NothingQueued(w.objs, x); }
  }

  lemma {:induction false} NothingQueued(objs: seq<Object>, x: nat)
    requires forall k :: 0 <= k < |objs| ==> objs[k].q.items == []
    ensures Occ(objs, x) == 0
    decreases |objs|
  {
    if objs == [] {
    } else {
      NothingQueued(objs[..|objs| - 1], x);
    }
  }
}
