/** First come, first served: what goes into a wait queue comes out in the same
    order, and semaphores and condition variables keep count of it. */
module Fifo {
  import opened Types
  import opened Threads
  import opened Sync
  import opened Machine
  import opened Shapes
  import opened Accounting
  import opened Waiting
  import opened Deadlock

  /** The slot that starts to wait on object `k` in this move, if any. */
  function Joined(w: World, mv: Move, k: nat): seq<nat>
    requires Enabled(w, mv)
  {
    if Step(w, mv).outcome.Swap? && w.t.current != 0 &&
       (|| mv == Call(On(k, Lock)) || mv == Call(On(k, Wait))
        || (mv.Call? && mv.op.CondWait? && mv.op.c == k)
        || (mv == Continue && w.ctl[Me(w)].m == k))
    then [Me(w)] else []
  }

  predicate Woken(w: World, u: World, x: nat) {
    IsBlocked(w.t.threads, x) && x < |u.t.threads| && u.t.threads[x].state == Ready
  }

  /** How many waiters of object `k` this move is meant to wake. */
  function Wakeups(w: World, mv: Move, k: nat): nat
    requires Enabled(w, mv) && k < |w.objs|
  {
    if mv == Call(On(k, Broadcast)) && w.objs[k].initialized then |w.objs[k].q.items|
    else if (|| mv == Call(On(k, Unlock)) || mv == Call(On(k, Post)) || mv == Call(On(k, Signal)))
            && Step(w, mv).outcome == Status0(OK) && w.objs[k].q.items != [] then 1
    else if mv.Call? && mv.op.CondWait? && mv.op.m == k && Step(w, mv).outcome.Swap?
            && w.objs[k].q.items != [] then 1
    else 0
  }

  predicate FifoStep(w: World, mv: Move, k: nat)
    requires Enabled(w, mv) && k < |w.objs|
  {
    var u, n := Step(w, mv).w, Wakeups(w, mv, k);
    && k < |u.objs| && n <= |w.objs[k].q.items|
    && u.objs[k].q.items == w.objs[k].q.items[n..] + Joined(w, mv, k)
    && forall p :: 0 <= p < n ==> Woken(w, u, w.objs[k].q.items[p])
  }

  predicate AllBlocked(ts: seq<Thread>, ws: seq<nat>) {
    && (forall p :: 0 <= p < |ws| ==> IsBlocked(ts, ws[p]))
    && (forall p, q :: 0 <= p < q < |ws| ==> ws[p] != ws[q])
  }

  function UnblockedEvent(ts: seq<Thread>, x: nat): Event {
    Event(EVT_THREAD_UNBLOCK, if x < |ts| then ts[x].tid else 0, 0, 0)
  }

  lemma FirstUnblocked(t: Table, ws: seq<nat>)
    requires AllBlocked(t.threads, ws) && ws != []
    ensures var t1 := Unblock(t, ws[0]);
            && t1.threads == t.threads[ws[0] := t.threads[ws[0]].(state := Ready)]
            && ws[0] !in ws[1..] && AllBlocked(t1.threads, ws[1..])
  {
    forall p | 1 <= p < |ws| ensures ws[1..][p - 1] == ws[p] {}
  }

  lemma {:induction false} UnblockAllReady(t: Table, ws: seq<nat>)
    requires AllBlocked(t.threads, ws)
    ensures var u := UnblockAll(t, ws);
            && |u.threads| == |t.threads|
            && (forall p :: 0 <= p < |ws| ==> u.threads[ws[p]].state == Ready)
            && (forall x :: 0 <= x < |t.threads| && x !in ws ==> u.threads[x] == t.threads[x])
    decreases |ws|
  {
    if ws == [] {
    } else {
      FirstUnblocked(t, ws);
      UnblockAllReady(Unblock(t, ws[0]), ws[1..]);
    }
  }

  function Unblockings(ts: seq<Thread>, ws: seq<nat>): seq<Event> {
    seq(|ws|, p requires 0 <= p < |ws| => UnblockedEvent(ts, ws[p]))
  }

  lemma FirstTold(ts: seq<Thread>, us: seq<Thread>, ws: seq<nat>)
    requires ws != [] && |us| == |ts| && forall i :: 0 <= i < |ts| ==> us[i].tid == ts[i].tid
    ensures Unblockings(ts, ws) == [UnblockedEvent(ts, ws[0])] + Unblockings(us, ws[1..])
  {
  }

  lemma {:induction false} UnblockAllTells(t: Table, ws: seq<nat>)
    requires AllBlocked(t.threads, ws)
    ensures UnblockAllEvents(t, ws) == Unblockings(t.threads, ws)
    decreases |ws|
  {
    if ws == [] {
    } else {
      FirstUnblocked(t, ws);
      UnblockAllTells(Unblock(t, ws[0]), ws[1..]);
      FirstTold(t.threads, Unblock(t, ws[0]).threads, ws);
    }
  }

  /** Draining a queue of distinct BLOCKED slots makes all of them READY, tells so
      in queue order, and touches no other slot. */
  lemma UnblockAllWakes(t: Table, ws: seq<nat>)
    requires AllBlocked(t.threads, ws)
    ensures var u := UnblockAll(t, ws);
            && |u.threads| == |t.threads|
            && (forall p :: 0 <= p < |ws| ==> u.threads[ws[p]].state == Ready)
            && (forall x :: 0 <= x < |t.threads| && x !in ws ==> u.threads[x] == t.threads[x])
    ensures UnblockAllEvents(t, ws) == Unblockings(t.threads, ws)
  {
    UnblockAllReady(t, ws);
    UnblockAllTells(t, ws);
  }

  lemma ItemsDistinct(ts: seq<Thread>, objs: seq<Object>, k: nat)
    requires Exact(ts, objs) && k < |objs|
    ensures AllBlocked(ts, objs[k].q.items)
  {
    var s := objs[k].q.items;
    forall p | 0 <= p < |s| ensures IsBlocked(ts, s[p]) && multiset(s)[s[p]] == 1 {
      QueuedIsBlocked(ts, objs, k, p);
    }
    forall p, q | 0 <= p < q < |s| ensures s[p] != s[q] {
      if s[p] == s[q] { TwiceIn(s, p, q); }
    }
  }

  /** The queue of the object itself, for the calls that wake at most one. */
  lemma PerformFifo(t: Table, o: Object, k: nat, call: ObjectCall)
    requires Fits(o.kind, call) && call != Broadcast && AllBlocked(t.threads, o.q.items)
    ensures var e := Perform(t, o, k, call);
            if e.outcome.Swap? then
              call in {Lock, Wait} && CurrentSlot(t) < |t.threads| && e.obj.q.items == o.q.items + [CurrentSlot(t)]
            else if call in {Unlock, Post, Signal} && e.outcome == Status0(OK) && o.q.items != [] then
              && e.obj.q.items == o.q.items[1..]
              && e.t.threads == t.threads[o.q.items[0] := t.threads[o.q.items[0]].(state := Ready)]
            else e.obj.q.items == o.q.items
  {
  }

  lemma BroadcastFifo(w: World, k: nat)
    requires Wf(w) && WaitOk(w) && Enabled(w, Call(On(k, Broadcast)))
    ensures FifoStep(w, Call(On(k, Broadcast)), k)
  {
    OnShape(w, k, Broadcast);
    ItemsDistinct(w.t.threads, w.objs, k);
    if w.objs[k].initialized { UnblockAllWakes(w.t, w.objs[k].q.items); }
  }

  lemma OneFifo(w: World, k: nat, call: ObjectCall)
    requires Wf(w) && WaitOk(w) && Enabled(w, Call(On(k, call))) && call != Broadcast
    ensures FifoStep(w, Call(On(k, call)), k)
  {
    OnShape(w, k, call);
    ItemsDistinct(w.t.threads, w.objs, k);
    PerformFifo(w.t, w.objs[k], k, call);
    OneDue(w, k, call);
  }

  /** What is due at the object itself, told from the outcome of the call. */
  lemma OneDue(w: World, k: nat, call: ObjectCall)
    requires Wf(w) && Enabled(w, Call(On(k, call))) && call != Broadcast
    ensures var o := Step(w, Call(On(k, call))).outcome;
            && Wakeups(w, Call(On(k, call)), k)
               == One(call in {Unlock, Post, Signal} && o == Status0(OK) && w.objs[k].q.items != [])
            && (w.t.current == 0 ==> !o.Swap?)
            && Joined(w, Call(On(k, call)), k) == if o.Swap? && call in {Lock, Wait} then [Me(w)] else []
  {
    OnShape(w, k, call);
  }

  lemma OnFifo(w: World, k': nat, call: ObjectCall, k: nat)
    requires Wf(w) && WaitOk(w) && Enabled(w, Call(On(k', call))) && k < |w.objs|
    ensures FifoStep(w, Call(On(k', call)), k)
  {
    if k != k' {
      UnnamedKept(w, Call(On(k', call)), k);
    } else if call == Broadcast {
      BroadcastFifo(w, k);
    } else {
      OneFifo(w, k, call);
    }
  }

  /** The two queues of a condition wait. */
  lemma CondAwaitFifo(t: Table, cv: Object, mx: Object, c: nat, m: nat)
    requires cv.kind.Cond? && mx.kind.Mutex?
    requires AllBlocked(t.threads, mx.q.items) && CurrentSlot(t) !in cv.q.items && CurrentSlot(t) !in mx.q.items
    ensures var e, i := CondAwait(t, cv, mx, c, m), CurrentSlot(t);
            if e.outcome.Swap? then
              && i < |t.threads| && e.cv.q.items == cv.q.items + [i]
              && (mx.q.items == [] ==> e.mx.q.items == [])
              && (mx.q.items != [] ==>
                    e.mx.q.items == mx.q.items[1..] && e.t.threads[mx.q.items[0]].state == Ready)
            else e.cv.q.items == cv.q.items && e.mx.q.items == mx.q.items
    ensures |CondAwait(t, cv, mx, c, m).t.threads| == |t.threads|
  {
    RemoveLast(cv.q.items, CurrentSlot(t));
  }

  /** What the two queues are after a condition wait. */
  predicate CondQueues(w: World, n: Next, c: nat, m: nat) {
    && |n.w.objs| == |w.objs| && c < |w.objs| && m < |w.objs|
    && if n.outcome.Swap? then
         && n.w.objs[c].q.items == w.objs[c].q.items + [Me(w)]
         && (w.objs[m].q.items == [] ==> n.w.objs[m].q.items == [])
         && (w.objs[m].q.items != [] ==>
               n.w.objs[m].q.items == w.objs[m].q.items[1..] && Woken(w, n.w, w.objs[m].q.items[0]))
       else n.w.objs[c].q.items == w.objs[c].q.items && n.w.objs[m].q.items == w.objs[m].q.items
  }

  lemma CondWaitQueues(w: World, c: nat, m: nat)
    requires Wf(w) && WaitOk(w) && Enabled(w, Call(CondWait(c, m)))
    ensures CondQueues(w, Step(w, Call(CondWait(c, m))), c, m)
    ensures w.t.current == 0 ==> !Step(w, Call(CondWait(c, m))).outcome.Swap?
  {
    CondWaitShape(w, c, m);
    ItemsDistinct(w.t.threads, w.objs, c);
    ItemsDistinct(w.t.threads, w.objs, m);
    CondAwaitFifo(w.t, w.objs[c], w.objs[m], c, m);
  }

  lemma CondWaitFifo(w: World, c: nat, m: nat, k: nat)
    requires Wf(w) && WaitOk(w) && Enabled(w, Call(CondWait(c, m))) && k < |w.objs|
    ensures FifoStep(w, Call(CondWait(c, m)), k)
  {
    if k != c && k != m {
      UnnamedKept(w, Call(CondWait(c, m)), k);
    } else {
      CondWaitQueues(w, c, m);
    }
  }

  lemma ContinueFifo(w: World, k: nat)
    requires Wf(w) && WaitOk(w) && Enabled(w, Continue) && k < |w.objs|
    ensures FifoStep(w, Continue, k)
  {
    if Names(w, Continue, k) {
      ContinueShape(w);
    } else {
      UnnamedKept(w, Continue, k);
    }
  }

  /** One move at one queue: arrivals at the back, wakeups from the front, nothing
      else; and the slots taken from the front did wake up. */
  lemma QueueStep(w: World, mv: Move, k: nat)
    requires Wf(w) && WaitOk(w) && Enabled(w, mv) && Harmless(w, mv) && k < |w.objs|
    ensures FifoStep(w, mv, k)
  {
    match mv
    case Continue => ContinueFifo(w, k);
    case Sched(_) => SchedShape(w, mv);
    case Call(op) =>
      match op
      case On(k', call) => OnFifo(w, k', call, k);
      case CondWait(c, m) => CondWaitFifo(w, c, m, k);
      case Init(k', count) => InitShape(w, k', count);
      case _ => ThreadCallShape(w, op);
  }

  /** Slot `x` is among the waiters of object `k` that this move is to wake. */
  predicate Due(w: World, mv: Move, k: nat, p: nat, x: nat)
    requires Enabled(w, mv)
  {
    QueuedAt(w.objs, k, p, x) && p < Wakeups(w, mv, k)
  }

  /** A slot that wakes up was due at some queue. */
  lemma WokenWasDue(w: World, mv: Move, x: nat) returns (k: nat, p: nat)
    requires Wf(w) && WaitOk(w) && Enabled(w, mv) && Harmless(w, mv) && Woken(w, Step(w, mv).w, x)
    ensures Due(w, mv, k, p, x)
  {
    assert Occ(w.objs, x) == One(IsBlocked(w.t.threads, x));
    k, p := OccPositive(w.objs, x);
    QueueStep(w, mv, k);
    StepKept(w, mv);
    if p >= Wakeups(w, mv, k) {
      StillWaiting(Step(w, mv).w, k, w.objs[k].q.items, Wakeups(w, mv, k), Joined(w, mv, k), p);
    }
  }

  lemma StillWaiting(u: World, k: nat, q: seq<nat>, n: nat, arrived: seq<nat>, p: nat)
    requires WaitOk(u) && k < |u.objs| && n <= p < |q| && u.objs[k].q.items == q[n..] + arrived
    ensures IsBlocked(u.t.threads, q[p])
  {
    assert u.objs[k].q.items[p - n] == q[p];
    QueuedIsBlocked(u.t.threads, u.objs, k, p - n);
  }

  /** One move, all queues: each takes its due waiters from the front and at most
      the caller at the back, and exactly the due waiters wake up. */
  lemma StepFifo(w: World, mv: Move)
    requires Wf(w) && WaitOk(w) && Enabled(w, mv) && Harmless(w, mv)
    ensures forall k :: 0 <= k < |w.objs| ==> FifoStep(w, mv, k)
    ensures forall x: nat :: Woken(w, Step(w, mv).w, x) <==> exists k: nat, p: nat :: Due(w, mv, k, p, x)
  {
    forall k | 0 <= k < |w.objs| ensures FifoStep(w, mv, k) { QueueStep(w, mv, k); }
    forall x: nat
      ensures Woken(w, Step(w, mv).w, x) <==> exists k: nat, p: nat :: Due(w, mv, k, p, x)
    {
      if Woken(w, Step(w, mv).w, x) {
        var k, p := WokenWasDue(w, mv, x);
      }
      if k: nat, p: nat :| Due(w, mv, k, p, x) {
        assert FifoStep(w, mv, k);
      }
    }
  }

  // ----- Whole runs -----

  function Arrivals(w: World, mvs: seq<Move>, k: nat): seq<nat>
    requires Runs(w, mvs)
    decreases |mvs|
  {
    if mvs == [] then [] else Joined(w, mvs[0], k) + Arrivals(Step(w, mvs[0]).w, mvs[1..], k)
  }

  /** The slots woken from queue `k`, in the order in which they were woken. */
  ghost function Departures(w: World, mvs: seq<Move>, k: nat): seq<nat>
    requires Wf(w) && WaitOk(w) && Runs(w, mvs) && HarmlessRun(w, mvs) && k < |w.objs|
    decreases |mvs|
  {
    if mvs == [] then []
    else
      StepOk(w, mvs[0]);
      StepKept(w, mvs[0]);
      QueueStep(w, mvs[0], k);
      w.objs[k].q.items[..Wakeups(w, mvs[0], k)] + Departures(Step(w, mvs[0]).w, mvs[1..], k)
  }

  lemma QueueAlgebra(q: seq<nat>, n: nat, j: seq<nat>, arrived: seq<nat>, departed: seq<nat>, last: seq<nat>)
    requires n <= |q| && (q[n..] + j) + arrived == departed + last
    ensures q + (j + arrived) == (q[..n] + departed) + last
  {
    calc {
      q + (j + arrived);
      { assert q == q[..n] + q[n..]; }
      q[..n] + ((q[n..] + j) + arrived);
      (q[..n] + departed) + last;
    }
  }

  /** Over any harmless run, for any object: those who waited at the start,
      followed by those who arrived, are those who were woken, in that order,
      followed by those who still wait. */
  lemma {:induction false} RunFifo(w: World, mvs: seq<Move>, k: nat)
    requires Wf(w) && WaitOk(w) && Runs(w, mvs) && HarmlessRun(w, mvs) && k < |w.objs|
    ensures k < |Final(w, mvs).objs|
    ensures w.objs[k].q.items + Arrivals(w, mvs, k) == Departures(w, mvs, k) + Final(w, mvs).objs[k].q.items
    decreases |mvs|
  {
    if mvs == [] {
    } else {
      StepOk(w, mvs[0]);
      StepKept(w, mvs[0]);
      QueueStep(w, mvs[0], k);
      var u := Step(w, mvs[0]).w;
      RunFifo(u, mvs[1..], k);
      QueueAlgebra(w.objs[k].q.items, Wakeups(w, mvs[0], k), Joined(w, mvs[0], k), Arrivals(u, mvs[1..], k),
                   Departures(u, mvs[1..], k), Final(w, mvs).objs[k].q.items);
    }
  }

  // ----- Semaphores -----

  predicate Posted(w: World, mv: Move, s: nat)
    requires Enabled(w, mv)
  {
    mv == Call(On(s, Post)) && Step(w, mv).outcome == Status0(OK)
  }

  /** A wait that found the count above zero. */
  predicate GrantedAtOnce(w: World, mv: Move, s: nat)
    requires Enabled(w, mv)
  {
    mv == Call(On(s, Wait)) && Step(w, mv).outcome == Status0(OK)
  }

  function Posts(w: World, mvs: seq<Move>, s: nat): nat
    requires Runs(w, mvs)
    decreases |mvs|
  {
    if mvs == [] then 0 else One(Posted(w, mvs[0], s)) + Posts(Step(w, mvs[0]).w, mvs[1..], s)
  }

  function AtOnce(w: World, mvs: seq<Move>, s: nat): nat
    requires Runs(w, mvs)
    decreases |mvs|
  {
    if mvs == [] then 0 else One(GrantedAtOnce(w, mvs[0], s)) + AtOnce(Step(w, mvs[0]).w, mvs[1..], s)
  }

  /** The semaphore is neither destroyed nor initialised in this run. */
  predicate Lifetime(mvs: seq<Move>, s: nat) {
    forall i :: 0 <= i < |mvs| && mvs[i].Call? ==>
      mvs[i].op != On(s, Destroy) && !(mvs[i].op.Init? && mvs[i].op.k == s)
  }

  /** One call on the semaphore itself: a post adds one to the count or wakes
      one; a wait that does not block takes one, and only when nobody waits. */
  lemma SemCall(t: Table, o: Object, s: nat, call: ObjectCall)
    requires o.kind.Sem? && Fits(o.kind, call) && call != Destroy && Tight(o)
    ensures var e := Perform(t, o, s, call);
            var ok := e.outcome == Status0(OK);
            && e.obj.kind.Sem?
            && o.kind.count + One(call == Post && ok)
               == e.obj.kind.count + One(call == Wait && ok) + One(call == Post && ok && o.q.items != [])
            && (call == Wait && ok ==> o.q.items == [])
  {
  }

  predicate SemAccount(w: World, mv: Move, s: nat)
    requires Enabled(w, mv) && s < |w.objs| && w.objs[s].kind.Sem?
  {
    var u := Step(w, mv).w;
    && s < |u.objs| && u.objs[s].kind.Sem?
    && (Lifetime([mv], s) ==>
          w.objs[s].kind.count + One(Posted(w, mv, s))
          == u.objs[s].kind.count + One(GrantedAtOnce(w, mv, s)) + Wakeups(w, mv, s))
    && (GrantedAtOnce(w, mv, s) ==> w.objs[s].q.items == [])
    && (w.objs[s].q.items != [] ==> Wakeups(w, mv, s) == One(Posted(w, mv, s)))
  }

  lemma SemAside(w: World, mv: Move, s: nat)
    requires Wf(w) && Enabled(w, mv) && s < |w.objs| && w.objs[s].kind.Sem? && !Names(w, mv, s)
    ensures SemAccount(w, mv, s)
  {
    UnnamedKept(w, mv, s);
    assert !Posted(w, mv, s) && !GrantedAtOnce(w, mv, s) && Wakeups(w, mv, s) == 0;
  }

  lemma SemNamed(w: World, s: nat, call: ObjectCall)
    requires Wf(w) && WaitOk(w) && Enabled(w, Call(On(s, call))) && s < |w.objs| && w.objs[s].kind.Sem?
    ensures SemAccount(w, Call(On(s, call)), s)
  {
    assert Tight(w.objs[s]);
    OnShape(w, s, call);
    if call != Destroy {
      SemCall(w.t, w.objs[s], s, call);
    } else {
      assert [Call(On(s, call))][0].op == On(s, Destroy);
    }
  }

  lemma SemStep(w: World, mv: Move, s: nat)
    requires Wf(w) && WaitOk(w) && Enabled(w, mv) && s < |w.objs| && w.objs[s].kind.Sem?
    ensures SemAccount(w, mv, s)
  {
    if !Names(w, mv, s) {
      SemAside(w, mv, s);
    } else if mv.op.Init? {
      InitShape(w, s, mv.op.count);
      assert [mv][0] == mv;
    } else {
      SemNamed(w, s, mv.op.call);
    }
  }

  /** The first move of a run: who leaves, and what is left to do. */
  lemma FirstMove(w: World, mvs: seq<Move>, s: nat)
    requires Wf(w) && WaitOk(w) && Runs(w, mvs) && HarmlessRun(w, mvs) && s < |w.objs| && mvs != []
    ensures var u := Step(w, mvs[0]).w;
            && Wf(u) && WaitOk(u) && s < |u.objs|
            && |Departures(w, mvs, s)| == Wakeups(w, mvs[0], s) + |Departures(u, mvs[1..], s)|
  {
    StepOk(w, mvs[0]);
    StepKept(w, mvs[0]);
    QueueStep(w, mvs[0], s);
  }

  lemma LifetimeSplit(mvs: seq<Move>, s: nat)
    requires mvs != [] && Lifetime(mvs, s)
    ensures Lifetime([mvs[0]], s) && Lifetime(mvs[1..], s)
  {
    assert [mvs[0]][0] == mvs[0];
  }

  /** Conservation: the count at the start and the posts make up the count at
      the end, the waits granted at once and the waiters woken. */
  lemma {:induction false} SemConservation(w: World, mvs: seq<Move>, s: nat)
    requires Wf(w) && WaitOk(w) && Runs(w, mvs) && HarmlessRun(w, mvs)
    requires s < |w.objs| && w.objs[s].kind.Sem? && Lifetime(mvs, s)
    ensures s < |Final(w, mvs).objs| && Final(w, mvs).objs[s].kind.Sem?
    ensures w.objs[s].kind.count + Posts(w, mvs, s)
            == Final(w, mvs).objs[s].kind.count + AtOnce(w, mvs, s) + |Departures(w, mvs, s)|
    decreases |mvs|
  {
    if mvs == [] {
    } else {
      FirstMove(w, mvs, s);
      SemStep(w, mvs[0], s);
      LifetimeSplit(mvs, s);
      SemConservation(Step(w, mvs[0]).w, mvs[1..], s);
    }
  }

  /** While there are no more posts than waiters, every post wakes one. */
  lemma {:induction false} PostsWake(w: World, mvs: seq<Move>, s: nat)
    requires Wf(w) && WaitOk(w) && Runs(w, mvs) && HarmlessRun(w, mvs)
    requires s < |w.objs| && w.objs[s].kind.Sem? && Posts(w, mvs, s) <= |w.objs[s].q.items|
    ensures |Departures(w, mvs, s)| == Posts(w, mvs, s)
    decreases |mvs|
  {
    if mvs == [] {
    } else {
      FirstMove(w, mvs, s);
      SemStep(w, mvs[0], s);
      QueueStep(w, mvs[0], s);
      PostsWake(Step(w, mvs[0]).w, mvs[1..], s);
    }
  }

  lemma PrefixAlgebra(q: seq<nat>, n: nat, arrived: seq<nat>, departed: seq<nat>, last: seq<nat>)
    requires q + arrived == departed + last && |departed| == n <= |q|
    ensures departed == q[..n] && last == q[n..] + arrived
  {
    assert departed == (departed + last)[..n] == (q + arrived)[..n] == q[..n];
    assert last == (departed + last)[n..] == (q + arrived)[n..] == q[n..] + arrived;
  }

  /** Strict order: as long as there were no more posts than waiters, the posts
      have served exactly the first waiters, and the others are still queued in
      their old order ahead of every later arrival. */
  lemma SemServesInOrder(w: World, mvs: seq<Move>, s: nat)
    requires Wf(w) && WaitOk(w) && Runs(w, mvs) && HarmlessRun(w, mvs)
    requires s < |w.objs| && w.objs[s].kind.Sem? && Posts(w, mvs, s) <= |w.objs[s].q.items|
    ensures s < |Final(w, mvs).objs|
    ensures var q, n := w.objs[s].q.items, Posts(w, mvs, s);
            && Departures(w, mvs, s) == q[..n]
            && Final(w, mvs).objs[s].q.items == q[n..] + Arrivals(w, mvs, s)
  {
    RunFifo(w, mvs, s);
    PostsWake(w, mvs, s);
    PrefixAlgebra(w.objs[s].q.items, Posts(w, mvs, s), Arrivals(w, mvs, s), Departures(w, mvs, s),
                  Final(w, mvs).objs[s].q.items);
  }

  /** A sound state in which the queue of semaphore `s` is what is left of `q`
      after `n` posts, followed by the later arrivals. */
  ghost predicate Ahead(u: World, s: nat, q: seq<nat>, n: nat, arrived: seq<nat>) {
    Wf(u) && WaitOk(u) && s < |u.objs| && n <= |q| && u.objs[s].q.items == q[n..] + arrived
  }

  /** Every run with no more posts than waiters ends in such a state, */
  lemma SemQueueAfter(w: World, mvs: seq<Move>, s: nat)
    requires Wf(w) && WaitOk(w) && Runs(w, mvs) && HarmlessRun(w, mvs)
    requires s < |w.objs| && w.objs[s].kind.Sem? && Posts(w, mvs, s) <= |w.objs[s].q.items|
    ensures Ahead(Final(w, mvs), s, w.objs[s].q.items, Posts(w, mvs, s), Arrivals(w, mvs, s))
  {
    RunKept(w, mvs);
    SemServesInOrder(w, mvs, s);
  }

  /** and in such a state the waiter that was at position `p` is still BLOCKED, and
      the next post wakes it exactly if there were `p` posts before. */
  lemma WaiterServed(u: World, s: nat, q: seq<nat>, n: nat, arrived: seq<nat>, p: nat)
    requires Ahead(u, s, q, n, arrived) && n <= p < |q|
    requires Enabled(u, Call(On(s, Post))) && Posted(u, Call(On(s, Post)), s)
    ensures IsBlocked(u.t.threads, q[p]) && (Woken(u, Step(u, Call(On(s, Post))).w, q[p]) <==> n == p)
  {
    PostWakesHead(u, s, p - n);
  }

  lemma PostWakesHead(u: World, s: nat, d: nat)
    requires Wf(u) && WaitOk(u) && s < |u.objs| && d < |u.objs[s].q.items|
    requires Enabled(u, Call(On(s, Post))) && Posted(u, Call(On(s, Post)), s)
    ensures IsBlocked(u.t.threads, u.objs[s].q.items[d])
    ensures Woken(u, Step(u, Call(On(s, Post))).w, u.objs[s].q.items[d]) <==> d == 0
  {
    ItemsDistinct(u.t.threads, u.objs, s);
    OnShape(u, s, Post);
    PerformFifo(u.t, u.objs[s], s, Post);
  }

  // ----- Condition variables -----

  /** A condition wait that fails to unlock the mutex puts everything back,
      provided the thread had not cancelled itself. */
  lemma RollbackExact(w: World, c: nat, m: nat)
    requires Wf(w) && WaitOk(w) && Enabled(w, Call(CondWait(c, m))) && w.t.current != 0
    requires w.objs[c].initialized && !Full(w.objs[c].q) && !MayUnlock(w.t, w.objs[m])
    ensures Step(w, Call(CondWait(c, m))).outcome == Status0(ESTATE)
    ensures Step(w, Call(CondWait(c, m))).w == w.(ctl := w.ctl[Me(w) := Ret(Result(ESTATE, 0))])
            <==> w.t.threads[Me(w)].state == Running
  {
    var i := Me(w);
    ItemsDistinct(w.t.threads, w.objs, c);
    RemoveLast(w.objs[c].q.items, i);
    var e := CondAwait(w.t, w.objs[c], w.objs[m], c, m);
    assert w.objs[c := e.cv][m := e.mx] == w.objs;
    assert e.t.threads == w.t.threads[i := w.t.threads[i].(state := Running)];
    assert w.t.threads[i].state == Running ==> e.t.threads == w.t.threads;
  }

  /** A condition wait that goes through leaves the thread BLOCKED at the back
      of the queue and the mutex free, in one step. */
  lemma WaitReleases(w: World, c: nat, m: nat)
    requires Wf(w) && WaitOk(w) && Enabled(w, Call(CondWait(c, m)))
    requires Step(w, Call(CondWait(c, m))).outcome.Swap?
    ensures var u := Step(w, Call(CondWait(c, m))).w;
            && c < |u.objs| && m < |u.objs| && Me(w) < |w.t.threads|
            && u.objs[c].q.items == w.objs[c].q.items + [Me(w)]
            && IsBlocked(u.t.threads, Me(w))
            && u.objs[m].kind == Mutex(false, 0)
            && (Abandoned(u.objs[m]) ==> exists i: nat :: Pending(u.t.threads, u.ctl, m, i))
  {
    CondWaitFifo(w, c, m, c);
    StepKept(w, Call(CondWait(c, m)));
    CondWaitShape(w, c, m);
    var u := Step(w, Call(CondWait(c, m))).w;
    assert w.objs[c].q.items[0..] == w.objs[c].q.items;
    QueuedIsBlocked(u.t.threads, u.objs, c, |w.objs[c].q.items|);
  }
}
