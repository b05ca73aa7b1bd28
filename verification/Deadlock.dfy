/** What the wait-queue invariant says of whole runs. */
module Deadlock {
  import opened Types
  import opened Threads
  import opened Sync
  import opened Machine
  import opened Accounting
  import opened Waiting

  predicate QueuedAt(objs: seq<Object>, k: nat, p: nat, x: nat) {
    k < |objs| && p < |objs[k].q.items| && objs[k].q.items[p] == x
  }

  function TotalQueued(objs: seq<Object>): nat {
    if objs == [] then 0 else TotalQueued(objs[..|objs| - 1]) + |objs[|objs| - 1].q.items|
  }

  // ----- Places in queues -----

  lemma {:induction false} OccPositive(objs: seq<Object>, x: nat) returns (k: nat, p: nat)
    requires Occ(objs, x) > 0
    ensures QueuedAt(objs, k, p, x)
    decreases |objs|
  {
    var n := |objs| - 1;
    if multiset(objs[n].q.items)[x] > 0 {
      assert x in objs[n].q.items;
      k := n;
      p :| 0 <= p < |objs[n].q.items| && objs[n].q.items[p] == x;
    } else {
      k, p := OccPositive(objs[..n], x);
    }
  }

  lemma TwiceIn(s: seq<nat>, a: nat, b: nat)
    requires a < b < |s| && s[a] == s[b]
    ensures multiset(s)[s[a]] >= 2
  {
    assert s == s[..b] + [s[b]] + s[b + 1..];
    assert s[a] in multiset(s[..b]) by { assert s[..b][a] == s[a]; }
  }

  lemma TwoQueues(objs: seq<Object>, x: nat, k: nat, p: nat, k': nat, p': nat)
    requires QueuedAt(objs, k, p, x) && QueuedAt(objs, k', p', x) && k != k'
    ensures Occ(objs, x) >= 2
  {
    var rest := objs[k := objs[k].(q := ZERO_QUEUE)];
    OccUpdate(objs, k, objs[k].(q := ZERO_QUEUE), x);
    OccUpdate(rest, k', rest[k'].(q := ZERO_QUEUE), x);
    assert x in multiset(objs[k].q.items) && x in multiset(rest[k'].q.items);
  }

  lemma OnePlace(objs: seq<Object>, x: nat, k: nat, p: nat, k': nat, p': nat)
    requires Occ(objs, x) <= 1 && QueuedAt(objs, k, p, x) && QueuedAt(objs, k', p', x)
    ensures k == k' && p == p'
  {
    OccUpdate(objs, k, objs[k].(q := ZERO_QUEUE), x);
    if k != k' {
      TwoQueues(objs, x, k, p, k', p');
    } else if p < p' {
      TwiceIn(objs[k].q.items, p, p');
    } else if p' < p {
      TwiceIn(objs[k].q.items, p', p);
    }
  }

  // ----- Lengths -----

  function SumOcc(objs: seq<Object>, n: nat): nat {
    if n == 0 then 0 else SumOcc(objs, n - 1) + Occ(objs, n - 1)
  }

  function SumIn(s: seq<nat>, n: nat): nat {
    if n == 0 then 0 else SumIn(s, n - 1) + multiset(s)[n - 1]
  }

  lemma {:induction false} SumInStep(s: seq<nat>, x: nat, n: nat)
    ensures SumIn(s + [x], n) == SumIn(s, n) + One(x < n)
    decreases n
  {
    if n == 0 {
    } else {
      SumInStep(s, x, n - 1);
    }
  }

  lemma {:induction false} SumInAll(s: seq<nat>, n: nat)
    requires forall p :: 0 <= p < |s| ==> s[p] < n
    ensures SumIn(s, n) == |s|
    decreases |s|
  {
    if s == [] {
      SumInNone(n);
    } else {
      var m := |s| - 1;
      SumInAll(s[..m], n);
      SumInStep(s[..m], s[m], n);
      assert s[..m] + [s[m]] == s;
    }
  }

  lemma {:induction false} SumInNone(n: nat)
    ensures SumIn([], n) == 0
    decreases n
  {
    if n == 0 {
    } else {
      SumInNone(n - 1);
    }
  }

  lemma {:induction false} SumOccSplit(objs: seq<Object>, o: Object, n: nat)
    ensures SumOcc(objs + [o], n) == SumOcc(objs, n) + SumIn(o.q.items, n)
    decreases n
  {
    if n == 0 {
    } else {
      SumOccSplit(objs, o, n - 1);
      assert (objs + [o])[..|objs|] == objs;
    }
  }

  lemma {:induction false} SumOccTotal(objs: seq<Object>, n: nat)
    requires forall k, p :: 0 <= k < |objs| && 0 <= p < |objs[k].q.items| ==> objs[k].q.items[p] < n
    ensures SumOcc(objs, n) == TotalQueued(objs)
    decreases |objs|
  {
    if objs == [] {
      SumOccNone(n);
    } else {
      var m := |objs| - 1;
      SumOccTotal(objs[..m], n);
      SumOccSplit(objs[..m], objs[m], n);
      SumInAll(objs[m].q.items, n);
      assert objs[..m] + [objs[m]] == objs;
    }
  }

  lemma {:induction false} SumOccNone(n: nat)
    ensures SumOcc([], n) == 0
    decreases n
  {
    if n == 0 {
    } else {
      SumOccNone(n - 1);
    }
  }

  lemma {:induction false} SumOccBlocked(ts: seq<Thread>, objs: seq<Object>, n: nat)
    requires n <= |ts| && forall x: nat :: x < n ==> Occ(objs, x) == One(IsBlocked(ts, x))
    ensures SumOcc(objs, n) == Count(ts[..n], Blocked)
    decreases n
  {
    if n == 0 {
    } else {
      SumOccBlocked(ts, objs, n - 1);
      assert ts[..n][..n - 1] == ts[..n - 1];
    }
  }

  // ----- Main results -----

  /** Queue membership is exact after every harmless run: a thread is BLOCKED
      exactly when its slot is queued, at one place of one queue, and the queue
      lengths add up to the number of BLOCKED threads. */
  lemma QueuesExact(w0: World, mvs: seq<Move>)
    requires Start(w0) && Runs(w0, mvs) && HarmlessRun(w0, mvs)
    ensures var w := Final(w0, mvs);
            && (forall x: nat :: IsBlocked(w.t.threads, x) <==> exists k: nat, p: nat :: QueuedAt(w.objs, k, p, x))
            && (forall x: nat, k: nat, p: nat, k': nat, p': nat ::
                  QueuedAt(w.objs, k, p, x) && QueuedAt(w.objs, k', p', x) ==> k == k' && p == p')
            && TotalQueued(w.objs) == Count(w.t.threads, Blocked) == w.t.blocked
  {
    StartOk(w0);
    RunKept(w0, mvs);
    var w := Final(w0, mvs);
    forall x: nat
      ensures IsBlocked(w.t.threads, x) <==> exists k: nat, p: nat :: QueuedAt(w.objs, k, p, x)
    {
      BlockedIsQueued(w.t.threads, w.objs, x);
    }
    forall x: nat, k: nat, p: nat, k': nat, p': nat | QueuedAt(w.objs, k, p, x) && QueuedAt(w.objs, k', p', x)
      ensures k == k' && p == p'
    {
      assert Occ(w.objs, x) == One(IsBlocked(w.t.threads, x));
      OnePlace(w.objs, x, k, p, k', p');
    }
    BlockedTotal(w);
  }

  lemma BlockedIsQueued(ts: seq<Thread>, objs: seq<Object>, x: nat)
    requires Exact(ts, objs)
    ensures IsBlocked(ts, x) <==> exists k: nat, p: nat :: QueuedAt(objs, k, p, x)
  {
    assert Occ(objs, x) == One(IsBlocked(ts, x));
    if IsBlocked(ts, x) {
      var k, p := OccPositive(objs, x);
    }
    if k: nat, p: nat :| QueuedAt(objs, k, p, x) {
      QueuedIsBlocked(ts, objs, k, p);
    }
  }

  lemma BlockedTotal(w: World)
    requires Wf(w) && WaitOk(w)
    ensures TotalQueued(w.objs) == Count(w.t.threads, Blocked) == w.t.blocked
  {
    SumOccTotal(w.objs, MAX_THREADS);
    SumOccBlocked(w.t.threads, w.objs, MAX_THREADS);
    assert w.t.threads[..MAX_THREADS] == w.t.threads;
  }

  /** No wakeup is lost: whenever a mutex is free and has waiters, a thread
      already taken from its queue is READY or running and will retest it. */
  lemma WakeupsKept(w0: World, mvs: seq<Move>, m: nat)
    requires Start(w0) && Runs(w0, mvs) && HarmlessRun(w0, mvs) && m < |Final(w0, mvs).objs|
    requires Abandoned(Final(w0, mvs).objs[m])
    ensures var w := Final(w0, mvs);
            exists i: nat :: i < MAX_THREADS && Pending(w.t.threads, w.ctl, m, i)
                             && forall k: nat, p: nat :: !QueuedAt(w.objs, k, p, i)
  {
    StartOk(w0);
    RunKept(w0, mvs);
    var w := Final(w0, mvs);
    var i: nat :| Pending(w.t.threads, w.ctl, m, i);
    forall k: nat, p: nat ensures !QueuedAt(w.objs, k, p, i) {
      if QueuedAt(w.objs, k, p, i) { QueuedIsBlocked(w.t.threads, w.objs, k, p); }
    }
  }

  /** What a blocked thread can rightly be waiting for. */
  predicate Stuck(o: Object) {
    match o.kind
    case Mutex(locked, _) => locked
    case Sem(count) => count == 0
    case Cond => true
  }

  predicate Unfinished(th: Thread) {
    Live(th) && !Terminal(th.state)
  }

  predicate NoneReady(ts: seq<Thread>) {
    forall i :: 0 <= i < |ts| ==> ts[i].state != Ready
  }

  /** Every unfinished thread, the joined one among them, is BLOCKED in the queue
      of a mutex that is held, of a semaphore at zero or of a condition variable. */
  ghost predicate Deadlocked(w: World) {
    && w.main.MJoin? && w.main.slot < |w.t.threads| && Unfinished(w.t.threads[w.main.slot])
    && (forall x: nat :: x < |w.t.threads| && Unfinished(w.t.threads[x]) ==>
          IsBlocked(w.t.threads, x) && exists k: nat, p: nat :: QueuedAt(w.objs, k, p, x) && Stuck(w.objs[k]))
  }

  lemma BlockedIsStuck(w: World, x: nat)
    requires Wf(w) && WaitOk(w) && w.t.current == 0 && NoneReady(w.t.threads) && x < |w.t.threads|
    requires Unfinished(w.t.threads[x])
    ensures IsBlocked(w.t.threads, x) && exists k: nat, p: nat :: QueuedAt(w.objs, k, p, x) && Stuck(w.objs[k])
  {
    assert w.t.threads[x].state != Running;
    assert Occ(w.objs, x) == One(IsBlocked(w.t.threads, x));
    var k, p := OccPositive(w.objs, x);
    assert forall i: nat :: !Pending(w.t.threads, w.ctl, k, i);
    assert Tight(w.objs[k]);
    assert QueuedAt(w.objs, k, p, x) && Stuck(w.objs[k]);
  }

  /** When the mode picks nobody, the scheduling loop of a join gives up with
      EBUSY. The deadlock that this reports is genuine exactly when no thread is
      READY, which a sound policy guarantees and a replayed trace does not. */
  lemma GenuineDeadlock(w0: World, mvs: seq<Move>)
    requires Start(w0) && Runs(w0, mvs) && HarmlessRun(w0, mvs)
    requires Final(w0, mvs).main.MJoin? && Enabled(Final(w0, mvs), Sched(None))
    ensures Step(Final(w0, mvs), Sched(None)).outcome == Status0(EBUSY)
    ensures Deadlocked(Final(w0, mvs)) <==> NoneReady(Final(w0, mvs).t.threads)
  {
    StartOk(w0);
    RunKept(w0, mvs);
    var w := Final(w0, mvs);
    if NoneReady(w.t.threads) {
      forall x: nat | x < |w.t.threads| && Unfinished(w.t.threads[x])
        ensures IsBlocked(w.t.threads, x)
        ensures exists k: nat, p: nat :: QueuedAt(w.objs, k, p, x) && Stuck(w.objs[k])
      {
        BlockedIsStuck(w, x);
      }
    } else {
      var i :| 0 <= i < |w.t.threads| && w.t.threads[i].state == Ready;
      assert Unfinished(w.t.threads[i]) && !IsBlocked(w.t.threads, i);
    }
  }
}
