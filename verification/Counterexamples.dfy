/** Runs on which a stronger reading of the guarantees fails. The exact conditions
    are those of `Exclusion.StepTells` for two holders, `Waiting.CancelExactly` and
    `Waiting.InitExactly` for the wait queues, `Fifo.RollbackExact` for the rollback,
    `Cancellation.CancellationStands` for a thread that cancels itself, and
    `Deadlock.GenuineDeadlock` for a join in replay mode. */
module Counterexamples {
  import opened Types
  import opened Paths
  import opened Threads
  import opened Sync
  import opened Machine
  import opened Accounting
  import opened Waiting
  import opened Deadlock
  import opened Programs
  import opened Exclusion
  import opened Fifo
  import opened Scheduler
  import opened TraceFormat
  import Replay

  /** The main context creates a thread and lets it run. */
  const HAND_OVER: seq<Move> := [Call(Create(0)), Call(Yield), Sched(Some(0))]

  /** Thread 1 in slot 0 has the processor and is in its own code. */
  predicate GreenTurn(w: World) {
    && |w.t.threads| == |w.ctl| == MAX_THREADS && w.t.current == 1
    && w.t.threads[0] == Thread(1, Running, 0, 0) && w.ctl[0].Ret?
    && (forall i :: 1 <= i < MAX_THREADS ==> w.t.threads[i] == EMPTY_THREAD)
    && w.main == MYield
  }

  /** The main context is in its own code and no thread exists. */
  predicate MainAlone(w: World) {
    && |w.t.threads| == |w.ctl| == MAX_THREADS && w.t.current == 0 && w.t.nextTid == 1 && w.main.MRet?
    && forall i :: 0 <= i < MAX_THREADS ==> w.t.threads[i] == EMPTY_THREAD
  }

  lemma Dispatched(w: World)
    requires MainAlone(w)
    ensures Runs(w, HAND_OVER) && GreenTurn(Final(w, HAND_OVER)) && Final(w, HAND_OVER).objs == w.objs
    ensures forall held, m: nat :: Holders(held, w, HAND_OVER, m) == held
    ensures HarmlessRun(w, HAND_OVER)
  {
    var w1 := Step(w, HAND_OVER[0]).w;
    assert EmptySlot(w.t.threads) == 0;
    assert w1.t.threads[0] == Thread(1, Ready, 0, 0) && w1.main.MRet? && w1.t.current == 0;
    var w2 := Step(w1, HAND_OVER[1]).w;
    var w3 := Step(w2, HAND_OVER[2]).w;
    assert GreenTurn(w3);
    assert HAND_OVER[1..] == HAND_OVER[1..3] && HAND_OVER[2..] == HAND_OVER[2..3] && HAND_OVER[3..] == [];
    assert HAND_OVER[1..][1..] == HAND_OVER[2..] && HAND_OVER[2..][1..] == [];
  }

  // ----- Mutual exclusion and a mutex of the main context -----

  const MAIN_LOCKS: seq<Move> := [Call(Init(0, 0)), Call(On(0, Lock))]
  const GREEN_TAKES: seq<Move> := [Call(On(0, Unlock)), Call(On(0, Lock))]

  lemma MainHolds(w: World)
    requires Start(w) && |w.objs| == 1 && w.objs[0].kind.Mutex?
    ensures Runs(w, MAIN_LOCKS) && MainAlone(Final(w, MAIN_LOCKS)) && Holders({}, w, MAIN_LOCKS, 0) == {0}
    ensures HarmlessRun(w, MAIN_LOCKS)
    ensures Final(w, MAIN_LOCKS).objs == [Object(true, Mutex(true, 0), EMPTY_QUEUE)]
  {
    var w1 := Step(w, MAIN_LOCKS[0]).w;
    assert w1.objs == [Object(true, Mutex(false, 0), EMPTY_QUEUE)];
    assert MAIN_LOCKS[1..] == [MAIN_LOCKS[1]] && MAIN_LOCKS[1..][1..] == [];
  }

  lemma GreenUnlocks(w: World)
    requires GreenTurn(w) && w.objs == [Object(true, Mutex(true, 0), EMPTY_QUEUE)]
    ensures Enabled(w, GREEN_TAKES[0]) && HoldersNext({0}, w, GREEN_TAKES[0], 0) == {0}
    ensures var u := Step(w, GREEN_TAKES[0]).w; u.objs == [Object(true, Mutex(false, 0), EMPTY_QUEUE)] && GreenTurn(u)
  {
    assert Me(w) == 0;
  }

  lemma GreenSteals(w: World)
    requires GreenTurn(w) && w.objs == [Object(true, Mutex(true, 0), EMPTY_QUEUE)]
    ensures Runs(w, GREEN_TAKES) && Holders({0}, w, GREEN_TAKES, 0) == {0, 1}
  {
    GreenUnlocks(w);
    var w1 := Step(w, GREEN_TAKES[0]).w;
    assert Me(w1) == 0;
    assert GREEN_TAKES[1..] == [GREEN_TAKES[1]] && GREEN_TAKES[1..][1..] == [];
  }

  /** A mutex that the main context holds has owner 0, so a green thread can
      unlock and lock it: then both are between acquisition and release. */
  lemma TwoHolders(w: World)
    requires Start(w) && |w.objs| == 1 && w.objs[0].kind.Mutex?
    ensures && Runs(w, MAIN_LOCKS)
            && var u := Final(w, MAIN_LOCKS);
            && Runs(u, HAND_OVER)
            && var v := Final(u, HAND_OVER);
            && Runs(v, GREEN_TAKES)
            && Holders(Holders(Holders({}, w, MAIN_LOCKS, 0), u, HAND_OVER, 0), v, GREEN_TAKES, 0) == {0, 1}
  {
    MainHolds(w);
    Dispatched(Final(w, MAIN_LOCKS));
    GreenSteals(Final(Final(w, MAIN_LOCKS), HAND_OVER));
  }

  // ----- Semaphore conservation and cancellation -----

  const MAKE_SEM: seq<Move> := [Call(Init(0, 0))]
  const WAIT_CANCEL: seq<Move> := [Call(On(0, Wait)), Call(Cancel(1))]

  /** The state after the cancellation: a stale entry in the queue. */
  predicate Stale(w: World) {
    && |w.t.threads| == MAX_THREADS && w.t.current == 0 && w.main.MRet?
    && w.t.threads[0] == Thread(1, Canceled, 0, 0)
    && w.objs == [Object(true, Sem(0), Queue(WAIT_QUEUE_SLOTS, [0]))]
  }

  lemma SemMade(w: World)
    requires Start(w) && |w.objs| == 1 && w.objs[0].kind.Sem?
    ensures Runs(w, MAKE_SEM) && HarmlessRun(w, MAKE_SEM) && MainAlone(Final(w, MAKE_SEM))
    ensures Final(w, MAKE_SEM).objs == [Object(true, Sem(0), EMPTY_QUEUE)]
  {
    assert MAKE_SEM[1..] == [];
  }

  lemma WaiterCanceled(w: World)
    requires GreenTurn(w) && w.objs == [Object(true, Sem(0), EMPTY_QUEUE)]
    ensures Runs(w, WAIT_CANCEL) && Stale(Final(w, WAIT_CANCEL))
  {
    assert Me(w) == 0;
    var w1 := Step(w, WAIT_CANCEL[0]).w;
    assert w1.objs[0].q.items == w.objs[0].q.items + [0] == [0];
    assert w1.objs == [Object(true, Sem(0), Queue(WAIT_QUEUE_SLOTS, [0]))] && w1.main.MRet? && w1.t.current == 0;
    assert w1.t.threads[0] == Thread(1, Blocked, 0, 0) && FindSlot(w1.t.threads, 1) == 0;
    assert WAIT_CANCEL[1..] == [WAIT_CANCEL[1]] && WAIT_CANCEL[1..][1..] == [];
  }

  lemma PostWasted(w: World)
    requires Stale(w)
    ensures Enabled(w, Call(On(0, Post))) && Posted(w, Call(On(0, Post)), 0)
    ensures var u := Step(w, Call(On(0, Post))).w;
            u.t.threads == w.t.threads && u.objs == [Object(true, Sem(0), EMPTY_QUEUE)]
  {
    assert w.objs[0].q.items[1..] == [];
  }

  /** A waiter cancelled while BLOCKED leaves its queue entry behind, and the
      next post is spent on it: a successful post after which the count is still
      0, no thread was woken and nobody waits. */
  lemma PostLost(w: World)
    requires Start(w) && |w.objs| == 1 && w.objs[0].kind.Sem?
    ensures && Runs(w, MAKE_SEM)
            && var u := Final(w, MAKE_SEM);
            && Runs(u, HAND_OVER)
            && var v := Final(u, HAND_OVER);
            && Runs(v, WAIT_CANCEL)
            && var x := Final(v, WAIT_CANCEL);
            && Enabled(x, Call(On(0, Post))) && Posted(x, Call(On(0, Post)), 0)
            && var y := Step(x, Call(On(0, Post))).w;
            && y.t.threads == x.t.threads && y.objs == [Object(true, Sem(0), EMPTY_QUEUE)]
  {
    SemMade(w);
    Dispatched(Final(w, MAKE_SEM));
    WaiterCanceled(Final(Final(w, MAKE_SEM), HAND_OVER));
    PostWasted(Final(Final(Final(w, MAKE_SEM), HAND_OVER), WAIT_CANCEL));
  }

  // ----- Reaching a state without harm -----

  /** Some harmless run leads from `w0` to `w`. */
  ghost predicate Reached(w0: World, w: World) {
    exists mvs :: Runs(w0, mvs) && HarmlessRun(w0, mvs) && Final(w0, mvs) == w
  }

  lemma ReachedStart(w: World)
    ensures Reached(w, w)
  {
    assert Runs(w, []) && HarmlessRun(w, []) && Final(w, []) == w;
  }

  ghost predicate Safe(w: World, mv: Move) {
    Enabled(w, mv) && Harmless(w, mv)
  }

  lemma {:induction false} HarmlessPath(w: World, mvs: seq<Move>)
    ensures Runs(w, mvs) && HarmlessRun(w, mvs) <==> Path((u, mv) => Safe(u, mv), Moved, w, mvs)
    ensures Runs(w, mvs) ==> Final(w, mvs) == PathEnd(Moved, w, mvs)
    decreases |mvs|
  {
    if mvs == [] {
    } else {
      HarmlessPath(Moved(w, mvs[0]), mvs[1..]);
    }
  }

  lemma HarmlessConcat(w: World, a: seq<Move>, b: seq<Move>)
    requires Runs(w, a) && HarmlessRun(w, a) && Runs(Final(w, a), b) && HarmlessRun(Final(w, a), b)
    ensures Runs(w, a + b) && HarmlessRun(w, a + b)
  {
    HarmlessPath(w, a);
    HarmlessPath(Final(w, a), b);
    PathConcat((u, mv) => Safe(u, mv), Moved, w, a, b);
    HarmlessPath(w, a + b);
  }

  lemma ReachMore(w0: World, w: World, mvs: seq<Move>)
    requires Reached(w0, w) && Runs(w, mvs) && HarmlessRun(w, mvs)
    ensures Reached(w0, Final(w, mvs))
  {
    var a :| Runs(w0, a) && HarmlessRun(w0, a) && Final(w0, a) == w;
    HarmlessConcat(w0, a, mvs);
    RunsConcat(w0, a, mvs);
  }

  lemma ReachedOk(w0: World, w: World)
    requires Start(w0) && Reached(w0, w)
    ensures Wf(w) && WaitOk(w)
  {
    var mvs :| Runs(w0, mvs) && HarmlessRun(w0, mvs) && Final(w0, mvs) == w;
    StartOk(w0);
    RunKept(w0, mvs);
  }

  // ----- Two threads wait for a mutex of the main context -----

  const TWO_THREADS: seq<Move> := [Call(Create(0)), Call(Create(0))]
  const FIRST_RUNS: seq<Move> := [Call(Yield), Sched(Some(0))]
  const FIRST_WAITS: seq<Move> := [Call(On(0, Lock)), Call(Yield), Sched(Some(1))]
  const SECOND_WAITS: seq<Move> := [Call(On(0, Lock))]

  /** Threads 1 and 2 exist in these states, there is one mutex, and it has these
      fields and waiters. */
  predicate Pair(w: World, first: ThreadState, second: ThreadState, locked: bool, waiters: seq<nat>) {
    && |w.t.threads| == |w.ctl| == MAX_THREADS && w.t.nextTid == 3
    && w.t.threads[0] == Thread(1, first, 0, 0) && w.t.threads[1] == Thread(2, second, 0, 0)
    && (forall i :: 2 <= i < MAX_THREADS ==> w.t.threads[i] == EMPTY_THREAD)
    && w.objs == [Object(true, Mutex(locked, 0), Queue(WAIT_QUEUE_SLOTS, waiters))]
  }

  predicate FirstTurn(w: World) {
    Pair(w, Running, Ready, true, []) && w.t.current == 1 && w.main == MYield && w.ctl[0].Ret? && w.ctl[1].Ret?
  }

  predicate SecondTurn(w: World) {
    && Pair(w, Blocked, Running, true, [0]) && w.t.current == 2 && w.main == MYield
    && w.ctl[0] == InLock(0) && w.ctl[1].Ret?
  }

  /** The main context is in its own code. */
  predicate MainTurn(w: World) {
    w.t.current == 0 && w.main.MRet? && |w.ctl| == MAX_THREADS && w.ctl[0] == w.ctl[1] == InLock(0)
  }

  lemma TwoCreated(w: World)
    requires MainAlone(w) && w.objs == [Object(true, Mutex(true, 0), EMPTY_QUEUE)]
    ensures Runs(w, TWO_THREADS) && HarmlessRun(w, TWO_THREADS)
    ensures var u := Final(w, TWO_THREADS);
            Pair(u, Ready, Ready, true, []) && u.t.current == 0 && u.main.MRet? && u.ctl[0].Ret? && u.ctl[1].Ret?
  {
    var w1 := Step(w, TWO_THREADS[0]).w;
    assert EmptySlot(w.t.threads) == 0;
    assert w1.t.threads[0] == Thread(1, Ready, 0, 0) && w1.t.current == 0 && w1.main.MRet?;
    assert w1.t.threads[1] == EMPTY_THREAD && EmptySlot(w1.t.threads) == 1;
    assert TWO_THREADS[1..] == [TWO_THREADS[1]] && TWO_THREADS[1..][1..] == [];
  }

  lemma FirstRuns(w: World)
    requires Pair(w, Ready, Ready, true, []) && w.t.current == 0 && w.main.MRet? && w.ctl[0].Ret? && w.ctl[1].Ret?
    ensures Runs(w, FIRST_RUNS) && HarmlessRun(w, FIRST_RUNS) && FirstTurn(Final(w, FIRST_RUNS))
  {
    var w1 := Step(w, FIRST_RUNS[0]).w;
    var w2 := Step(w1, FIRST_RUNS[1]).w;
    assert FirstTurn(w2);
    assert FIRST_RUNS[1..] == [FIRST_RUNS[1]] && FIRST_RUNS[1..][1..] == [];
  }

  lemma FirstWaits(w: World)
    requires FirstTurn(w)
    ensures Runs(w, FIRST_WAITS) && HarmlessRun(w, FIRST_WAITS) && SecondTurn(Final(w, FIRST_WAITS))
  {
    var mvs := FIRST_WAITS;
    assert Me(w) == 0;
    var w1 := Step(w, mvs[0]).w;
    assert w1.objs[0].q.items == w.objs[0].q.items + [0] == [0];
    assert w1.t.threads[0].state == Blocked && w1.t.current == 0 && w1.main.MRet?;
    var w2 := Step(w1, mvs[1]).w;
    var w3 := Step(w2, mvs[2]).w;
    assert SecondTurn(w3);
    assert mvs[1..][1..] == mvs[2..] && mvs[2..][1..] == [];
  }

  lemma SecondWaits(w: World)
    requires SecondTurn(w)
    ensures Runs(w, SECOND_WAITS) && HarmlessRun(w, SECOND_WAITS)
    ensures var u := Final(w, SECOND_WAITS); Pair(u, Blocked, Blocked, true, [0, 1]) && MainTurn(u)
  {
    assert Me(w) == 1;
    var w1 := Step(w, SECOND_WAITS[0]).w;
    assert w1.objs[0].q.items == w.objs[0].q.items + [1] == [0, 1];
    assert SECOND_WAITS[1..] == [];
  }

  /** Both threads wait for a mutex that the main context holds. */
  lemma BothWait(w0: World) returns (w: World)
    requires Start(w0) && |w0.objs| == 1 && w0.objs[0].kind.Mutex?
    ensures Reached(w0, w) && Pair(w, Blocked, Blocked, true, [0, 1]) && MainTurn(w)
  {
    ReachedStart(w0);
    MainHolds(w0);
    var w1 := Final(w0, MAIN_LOCKS);
    ReachMore(w0, w0, MAIN_LOCKS);
    TwoCreated(w1);
    var v := Final(w1, TWO_THREADS);
    ReachMore(w0, w1, TWO_THREADS);
    FirstRuns(v);
    var w2 := Final(v, FIRST_RUNS);
    ReachMore(w0, v, FIRST_RUNS);
    FirstWaits(w2);
    var w3 := Final(w2, FIRST_WAITS);
    ReachMore(w0, w2, FIRST_WAITS);
    SecondWaits(w3);
    w := Final(w3, SECOND_WAITS);
    ReachMore(w0, w3, SECOND_WAITS);
  }

  // ----- A deadlock that is none -----

  /** Thread 2 waits for a mutex that is free, and no woken thread will retest it. */
  ghost predicate Orphaned(w: World) {
    && Pair(w, Canceled, Blocked, false, [1])
    && Abandoned(w.objs[0]) && forall i: nat :: !Pending(w.t.threads, w.ctl, 0, i)
  }

  /** Joining thread 2 then reports a deadlock, and it is not genuine. */
  lemma FalseDeadlock(w: World)
    requires Orphaned(w) && w.t.current == 0 && w.main.MRet?
    ensures Enabled(w, Call(Join(2)))
    ensures var u := Step(w, Call(Join(2))).w;
            && u.main.MJoin? && Enabled(u, Sched(None)) && NoneReady(u.t.threads)
            && Step(u, Sched(None)).outcome == Status0(EBUSY)
            && IsBlocked(u.t.threads, 1) && QueuedAt(u.objs, 0, 0, 1) && Abandoned(u.objs[0]) && !Stuck(u.objs[0])
            && !Deadlocked(u)
  {
    assert FindSlot(w.t.threads, 2) == 1;
    var u := Step(w, Call(Join(2))).w;
    assert u.t == w.t && u.objs == w.objs;
    assert Unfinished(u.t.threads[1]);
  }

  /** A waiter is cancelled while BLOCKED, and the wakeup of the next unlock is
      spent on its stale queue entry. */
  lemma StaleWakeup(w: World)
    requires Pair(w, Blocked, Blocked, true, [0, 1]) && MainTurn(w)
    ensures Enabled(w, Call(Cancel(1))) && !Harmless(w, Call(Cancel(1)))
    ensures var u := Step(w, Call(Cancel(1))).w;
            && Enabled(u, Call(On(0, Unlock))) && Step(u, Call(On(0, Unlock))).outcome == Status0(OK)
            && var x := Step(u, Call(On(0, Unlock))).w;
            Orphaned(x) && x.t.current == 0 && x.main.MRet?
  {
    assert FindSlot(w.t.threads, 1) == 0;
    var u := Step(w, Call(Cancel(1))).w;
    assert Pair(u, Canceled, Blocked, true, [0, 1]) && MainTurn(u);
    assert [0, 1][1..] == [1];
  }

  const SPOILED_JOIN: seq<Move> := [Call(Cancel(1)), Call(On(0, Unlock)), Call(Join(2))]

  /** From the start to a false deadlock, by one cancellation of a BLOCKED thread. */
  lemma FalseDeadlockReached(w0: World) returns (w: World, y: World)
    requires Start(w0) && |w0.objs| == 1 && w0.objs[0].kind.Mutex?
    ensures Reached(w0, w) && Runs(w, SPOILED_JOIN) && Final(w, SPOILED_JOIN) == y
    ensures |y.objs| == 1 && Abandoned(y.objs[0]) && !Stuck(y.objs[0]) && NoneReady(y.t.threads) && !Deadlocked(y)
    ensures y.main.MJoin? && Enabled(y, Sched(None)) && Step(y, Sched(None)).outcome == Status0(EBUSY)
  {
    w := BothWait(w0);
    StaleWakeup(w);
    var u := Step(w, SPOILED_JOIN[0]).w;
    var x := Step(u, SPOILED_JOIN[1]).w;
    FalseDeadlock(x);
    y := Step(x, SPOILED_JOIN[2]).w;
    assert SPOILED_JOIN[1..][1..] == [SPOILED_JOIN[2]] && SPOILED_JOIN[1..][1..][1..] == [];
  }

  // ----- A woken thread is cancelled -----

  lemma FirstWoken(w: World)
    requires Pair(w, Blocked, Blocked, true, [0, 1]) && MainTurn(w)
    ensures Runs(w, [Call(On(0, Unlock))]) && HarmlessRun(w, [Call(On(0, Unlock))])
    ensures var u := Final(w, [Call(On(0, Unlock))]); Pair(u, Ready, Blocked, false, [1]) && MainTurn(u)
  {
    assert [0, 1][1..] == [1];
    assert [Call(On(0, Unlock))][1..] == [];
  }

  /** The thread woken by an unlock is the only one that will retest the free
      mutex. If it is cancelled, nobody will: the wakeup is lost. */
  lemma WakeupLost(w0: World) returns (w: World)
    requires Start(w0) && |w0.objs| == 1 && w0.objs[0].kind.Mutex?
    ensures Reached(w0, w) && Wf(w) && WaitOk(w) && Enabled(w, Call(Cancel(1)))
    ensures IsReady(w.t.threads, 0) && SoleRescuer(w, 0) && !Harmless(w, Call(Cancel(1)))
    ensures var u := Step(w, Call(Cancel(1))).w; Orphaned(u) && !WaitOk(u)
  {
    var v := BothWait(w0);
    FirstWoken(v);
    w := Final(v, [Call(On(0, Unlock))]);
    ReachMore(w0, v, [Call(On(0, Unlock))]);
    ReachedOk(w0, w);
    RescuerCanceled(w);
    CancelExactly(w, 1);
  }

  lemma RescuerCanceled(w: World)
    requires Pair(w, Ready, Blocked, false, [1]) && MainTurn(w)
    ensures SoleRescuer(w, 0) && Enabled(w, Call(Cancel(1))) && !Harmless(w, Call(Cancel(1)))
    ensures Orphaned(Step(w, Call(Cancel(1))).w)
  {
    assert FindSlot(w.t.threads, 1) == 0;
    assert Abandoned(w.objs[0]) && Pending(w.t.threads, w.ctl, 0, 0);
    assert forall x: nat :: Pending(w.t.threads, w.ctl, 0, x) ==> x == 0;
  }

  // ----- An object with waiters is initialised again -----

  const SEM_WAITS: seq<Move> := [Call(On(0, Wait))]

  lemma SemWaits(w: World)
    requires GreenTurn(w) && w.objs == [Object(true, Sem(0), EMPTY_QUEUE)]
    ensures Runs(w, SEM_WAITS) && HarmlessRun(w, SEM_WAITS)
    ensures var u := Final(w, SEM_WAITS);
            && u.t.current == 0 && u.main.MRet? && IsBlocked(u.t.threads, 0)
            && u.objs == [Object(true, Sem(0), Queue(WAIT_QUEUE_SLOTS, [0]))]
  {
    assert Me(w) == 0;
    var u := Step(w, SEM_WAITS[0]).w;
    assert u.objs[0].q.items == w.objs[0].q.items + [0] == [0];
    assert SEM_WAITS[1..] == [];
  }

  /** The waiter stays BLOCKED and is in no queue any more. */
  lemma WaiterForgotten(w0: World) returns (w: World)
    requires Start(w0) && |w0.objs| == 1 && w0.objs[0].kind.Sem?
    ensures Reached(w0, w) && Enabled(w, Call(Init(0, 0))) && !Harmless(w, Call(Init(0, 0)))
    ensures var u := Step(w, Call(Init(0, 0))).w;
            IsBlocked(u.t.threads, 0) && forall k: nat, p: nat :: !QueuedAt(u.objs, k, p, 0)
  {
    ReachedStart(w0);
    SemMade(w0);
    ReachMore(w0, w0, MAKE_SEM);
    var w1 := Final(w0, MAKE_SEM);
    Dispatched(w1);
    ReachMore(w0, w1, HAND_OVER);
    var w2 := Final(w1, HAND_OVER);
    SemWaits(w2);
    ReachMore(w0, w2, SEM_WAITS);
    w := Final(w2, SEM_WAITS);
  }

  // ----- A thread that cancelled itself waits on a condition -----

  const MAKE_COND: seq<Move> := [Call(Init(0, 0))]

  lemma CondMade(w: World)
    requires Start(w) && |w.objs| == 2 && w.objs[0].kind.Cond? && w.objs[1].kind.Mutex?
    ensures Runs(w, MAKE_COND) && HarmlessRun(w, MAKE_COND) && MainAlone(Final(w, MAKE_COND))
    ensures Final(w, MAKE_COND).objs == [Object(true, Cond, EMPTY_QUEUE), w.objs[1]]
  {
    assert MAKE_COND[1..] == [];
  }

  /** The failed wait rolls back to RUNNING and so undoes the cancellation. */
  lemma CancellationUndone(w0: World) returns (w: World)
    requires Start(w0) && |w0.objs| == 2 && w0.objs[0].kind.Cond? && w0.objs[1].kind.Mutex?
    ensures Reached(w0, w) && w.t.threads != [] && w.t.threads[0].state == Canceled && Enabled(w, Call(CondWait(0, 1)))
    ensures var n := Step(w, Call(CondWait(0, 1)));
            n.outcome == Status0(ESTATE) && n.w.t.threads != [] && n.w.t.threads[0].state == Running
  {
    ReachedStart(w0);
    CondMade(w0);
    ReachMore(w0, w0, MAKE_COND);
    var w1 := Final(w0, MAKE_COND);
    Dispatched(w1);
    ReachMore(w0, w1, HAND_OVER);
    var w2 := Final(w1, HAND_OVER);
    SelfCancel(w2);
    ReachMore(w0, w2, [Call(Cancel(1))]);
    w := Final(w2, [Call(Cancel(1))]);
    RolledBack(w);
  }

  lemma RolledBack(w: World)
    requires w.t.current == 1 && |w.t.threads| == |w.ctl| == MAX_THREADS && w.ctl[0].Ret?
    requires w.t.threads[0] == Thread(1, Canceled, 0, 0)
    requires |w.objs| == 2 && w.objs[0] == Object(true, Cond, EMPTY_QUEUE) && w.objs[1].kind.Mutex? && Zeroed(w.objs[1])
    ensures Enabled(w, Call(CondWait(0, 1)))
    ensures var n := Step(w, Call(CondWait(0, 1)));
            n.outcome == Status0(ESTATE) && n.w.t.threads != [] && n.w.t.threads[0].state == Running
  {
    assert FindSlot(w.t.threads, 1) == 0;
  }

  lemma SelfCancel(w: World)
    requires GreenTurn(w) && |w.objs| == 2 && w.objs[0] == Object(true, Cond, EMPTY_QUEUE) && Zeroed(w.objs[1])
    ensures Runs(w, [Call(Cancel(1))]) && HarmlessRun(w, [Call(Cancel(1))])
    ensures var u := Final(w, [Call(Cancel(1))]);
            && u.objs == w.objs && u.t.current == 1 && |u.t.threads| == |u.ctl| == MAX_THREADS && u.ctl[0].Ret?
            && u.t.threads[0] == Thread(1, Canceled, 0, 0)
  {
    assert FindSlot(w.t.threads, 1) == 0;
    assert [Call(Cancel(1))][1..] == [];
    assert forall j :: 0 <= j < |w.objs| ==> !Abandoned(w.objs[j]);
  }

  // ----- A replayed trace that has ended -----

  const CREATE_JOIN: seq<Move> := [Call(Create(0)), Call(Join(1))]

  /** In replay mode the trace decides. Once it has no more switches, a join answers
      EBUSY although its thread is READY; nothing was cancelled or initialised. */
  lemma ReplayedFalseDeadlock(w0: World, rs: seq<Record>, diverged: bool) returns (w: World)
    requires Start(w0)
    ensures Reached(w0, w) && w.main.MJoin? && Enabled(w, Sched(None)) && IsReady(w.t.threads, 0)
    ensures Replay.ReplayPicker(rs)(w.t.threads, Replay.Cursor(|rs|, diverged)).0 == None
    ensures Step(w, Sched(None)).outcome == Status0(EBUSY) && !Deadlocked(w)
  {
    ReachedStart(w0);
    var w1 := Step(w0, CREATE_JOIN[0]).w;
    assert EmptySlot(w0.t.threads) == 0;
    assert w1.t.threads[0] == Thread(1, Ready, 0, 0) && w1.main.MRet? && w1.t.current == 0;
    assert FindSlot(w1.t.threads, 1) == 0;
    assert CREATE_JOIN[1..] == [CREATE_JOIN[1]] && CREATE_JOIN[1..][1..] == [];
    w := Final(w0, CREATE_JOIN);
    assert w == Step(w1, CREATE_JOIN[1]).w;
    ReachMore(w0, w0, CREATE_JOIN);
    assert Unfinished(w.t.threads[0]) && !IsBlocked(w.t.threads, 0);
  }

  // ----- A cancellation that does not stand -----

  const CANCEL_YIELD: seq<Move> := [Call(Cancel(1)), Call(Yield)]
  const YIELD_EXIT: seq<Move> := [Call(Yield), Sched(Some(0)), Call(Exit(7))]

  lemma CanceledYields(w: World)
    requires GreenTurn(w)
    ensures Runs(w, CANCEL_YIELD)
    ensures var u := Final(w, CANCEL_YIELD);
            && |u.t.threads| == |u.ctl| == MAX_THREADS && u.t.current == 0 && u.main.MRet? && u.ctl[0].Ret?
            && u.t.threads[0] == Thread(1, Ready, 0, 0)
  {
    assert FindSlot(w.t.threads, 1) == 0;
    var w1 := Step(w, CANCEL_YIELD[0]).w;
    assert w1.t.threads[0] == Thread(1, Canceled, 0, 0) && w1.t.current == 1 && w1.ctl[0].Ret?;
    assert FindSlot(w1.t.threads, 1) == 0;
    assert CANCEL_YIELD[1..] == [CANCEL_YIELD[1]] && CANCEL_YIELD[1..][1..] == [];
  }

  lemma CanceledFinishes(w: World)
    requires |w.t.threads| == |w.ctl| == MAX_THREADS && w.t.current == 0 && w.main.MRet? && w.ctl[0].Ret?
    requires w.t.threads[0] == Thread(1, Ready, 0, 0)
    ensures Runs(w, YIELD_EXIT)
    ensures var u := Final(w, YIELD_EXIT); |u.t.threads| > 0 && u.t.threads[0] == Thread(1, Done, 0, 7)
  {
    var w1 := Step(w, YIELD_EXIT[0]).w;
    var w2 := Step(w1, YIELD_EXIT[1]).w;
    assert w2.t.current == 1 && FindSlot(w2.t.threads, 1) == 0;
    assert YIELD_EXIT[1..][1..] == [YIELD_EXIT[2]] && YIELD_EXIT[1..][1..][1..] == [];
  }

  /** A thread cancels itself and yields: it is READY again, runs again, and ends
      DONE with the value it returns. */
  lemma CancellationForgotten(w0: World) returns (w: World)
    requires Start(w0)
    ensures Reached(w0, w) && GreenTurn(w) && Runs(w, CANCEL_YIELD) && Runs(Final(w, CANCEL_YIELD), YIELD_EXIT)
    ensures var u := Final(Final(w, CANCEL_YIELD), YIELD_EXIT);
            |u.t.threads| > 0 && u.t.threads[0] == Thread(1, Done, 0, 7)
  {
    ReachedStart(w0);
    Dispatched(w0);
    ReachMore(w0, w0, HAND_OVER);
    w := Final(w0, HAND_OVER);
    CanceledYields(w);
    CanceledFinishes(Final(w, CANCEL_YIELD));
  }
}
