/** The runtime as it is written: one object with the thread table and its
    counters, updated in place, and the synchronisation objects. Every method is
    the code between two context switches, proved against the function of the
    same step; `Swap` is where the code would switch contexts. */
module Runtime {
  import opened Types
  import opened Threads
  import opened Sync
  import opened WaitQueues
  import opened Scheduler
  import opened Machine
  import opened Policies
  import opened Fuzz
  import Loader
  import Replay

  datatype Mode = NORMAL | RECORD | REPLAY | FUZZ

  class MutexObject {
    var initialized: bool
    var locked: bool
    var owner: nat
    const wq: WaitQueue

    ghost predicate Valid()
      reads this, wq, wq.slots
    {
      wq.Valid()
    }

    ghost function Value(): (o: Object)
      reads this, wq
      ensures o.kind.Mutex?
    {
      Object(initialized, Mutex(locked, owner), wq.Value())
    }

    /** Zeroed memory. */
    constructor ()
      ensures Valid() && Value() == Object(false, Mutex(false, 0), ZERO_QUEUE) && fresh(wq) && fresh(wq.slots)
    {
      initialized, locked, owner := false, false, 0;
      wq := new WaitQueue();
    }
  }

  class SemObject {
    var initialized: bool
    var count: nat
    const wq: WaitQueue

    ghost predicate Valid()
      reads this, wq, wq.slots
    {
      wq.Valid()
    }

    ghost function Value(): (o: Object)
      reads this, wq
      ensures o.kind.Sem?
    {
      Object(initialized, Sem(count), wq.Value())
    }

    constructor ()
      ensures Valid() && Value() == Object(false, Sem(0), ZERO_QUEUE) && fresh(wq) && fresh(wq.slots)
    {
      initialized, count := false, 0;
      wq := new WaitQueue();
    }
  }

  class CondObject {
    var initialized: bool
    const wq: WaitQueue

    ghost predicate Valid()
      reads this, wq, wq.slots
    {
      wq.Valid()
    }

    ghost function Value(): (o: Object)
      reads this, wq
      ensures o.kind.Cond?
    {
      Object(initialized, Cond, wq.Value())
    }

    constructor ()
      ensures Valid() && Value() == Object(false, Cond, ZERO_QUEUE) && fresh(wq) && fresh(wq.slots)
    {
      initialized := false;
      wq := new WaitQueue();
    }
  }

  class RuntimeState {
    const threads: array<Thread>
    var nextTid: nat
    var current: nat
    var runnable: nat
    var blocked: nat
    var switches: nat
    var lastSlot: nat
    /** What has been handed to the trace so far. */
    var events: seq<Event>

    ghost predicate Valid()
      reads this
    {
      threads.Length == MAX_THREADS && lastSlot < MAX_THREADS
    }

    ghost function Now(): Table
      reads this, threads
    {
      Table(threads[..], nextTid, current, runnable, blocked, switches)
    }

    /** `gth_runtime_init`. */
    constructor ()
      ensures Valid() && fresh(threads) && events == [] && lastSlot == MAX_THREADS - 1
      ensures Now() == Table(seq(MAX_THREADS, _ => EMPTY_THREAD), 1, 0, 0, 0, 0)
    {
      threads := new Thread[MAX_THREADS](_ => EMPTY_THREAD);
      nextTid, current, runnable, blocked, switches := 1, 0, 0, 0, 0;
      lastSlot := MAX_THREADS - 1;
      events := [];
    }

    // ----- runtime.c -----

    method FindThread(tid: nat) returns (i: nat)
      requires Valid()
      ensures i == FindSlot(threads[..], tid)
    {
      i := 0;
      while i < MAX_THREADS
        invariant i <= MAX_THREADS && FindFrom(threads[..], tid, 0) == FindFrom(threads[..], tid, i)
      {
        if threads[i].state != Empty && threads[i].tid == tid {
          return;
        }
        i := i + 1;
      }
    }

    method AllocSlot() returns (i: nat)
      requires Valid()
      ensures i == EmptySlot(threads[..])
    {
      i := 0;
      while i < MAX_THREADS
        invariant i <= MAX_THREADS && EmptyFrom(threads[..], 0) == EmptyFrom(threads[..], i)
      {
        if threads[i].state == Empty {
          return;
        }
        i := i + 1;
      }
    }

    /** `gth_runtime_snapshot_stats`: a recount by a full scan. */
    method Snapshot() returns (total: nat, ready: nat, waiting: nat, finished: nat)
      requires Valid()
      ensures total + Count(threads[..], Empty) == MAX_THREADS
      ensures ready == Count(threads[..], Ready) && waiting == Count(threads[..], Blocked)
      ensures finished == Count(threads[..], Done) + Count(threads[..], Canceled)
    {
      total, ready, waiting, finished := 0, 0, 0, 0;
      var i := 0;
      while i < MAX_THREADS
        invariant i <= MAX_THREADS && total + Count(threads[..i], Empty) == i
        invariant ready == Count(threads[..i], Ready) && waiting == Count(threads[..i], Blocked)
        invariant finished == Count(threads[..i], Done) + Count(threads[..i], Canceled)
      {
        assert threads[..i + 1][..i] == threads[..i];
        if threads[i].state != Empty {
          total := total + 1;
          if threads[i].state == Ready {
            ready := ready + 1;
          } else if threads[i].state == Blocked {
            waiting := waiting + 1;
          } else if Terminal(threads[i].state) {
            finished := finished + 1;
          }
        }
        i := i + 1;
      }
      assert threads[..i] == threads[..];
    }

    // ----- thread.c -----

    method CurrentIndex() returns (i: nat)
      requires Valid()
      ensures i == CurrentSlot(Now())
    {
      if current == 0 {
        return MAX_THREADS;
      }
      i := FindThread(current);
    }

    method SetThreadState(i: nat, st: ThreadState)
      requires Valid() && i < MAX_THREADS
      modifies this, threads
      ensures Valid() && Now() == SetState(old(Now()), i, st)
      ensures events == old(events) && lastSlot == old(lastSlot)
    {
      var from := threads[i].state;
      if from == st {
        assert threads[..][i := threads[i].(state := st)] == threads[..];
        return;
      }
      if from == Ready && runnable > 0 {
        runnable := runnable - 1;
      } else if from == Blocked && blocked > 0 {
        blocked := blocked - 1;
      }
      if st == Ready {
        runnable := runnable + 1;
      } else if st == Blocked {
        blocked := blocked + 1;
      }
      threads[i] := threads[i].(state := st);
    }

    method UnblockSlot(i: nat) returns (status: Status)
      requires Valid()
      modifies this, threads
      ensures Valid() && lastSlot == old(lastSlot)
      ensures Now() == Unblock(old(Now()), i) && status == UnblockStatus(old(Now()), i)
      ensures events == old(events) + UnblockEvents(old(Now()), i)
    {
      if i >= MAX_THREADS {
        return EINVAL;
      }
      if threads[i].state != Blocked {
        return ESTATE;
      }
      threads[i] := threads[i].(state := Ready);
      if blocked > 0 {
        blocked := blocked - 1;
      }
      runnable := runnable + 1;
      events := events + [Event(EVT_THREAD_UNBLOCK, threads[i].tid, 0, 0)];
      status := OK;
    }

    /** `gth_thread_block` up to its switch; the main context cannot block. */
    method BlockCurrent() returns (o: Outcome)
      requires Valid()
      modifies this, threads
      ensures Valid() && lastSlot == old(lastSlot) && current == old(current)
      ensures var i := CurrentSlot(old(Now()));
              if i < MAX_THREADS then
                && o == Swap(Ret(Result(OK, 0))) && Now() == BlockAt(old(Now()), i)
                && events == old(events) + [Event(EVT_THREAD_BLOCK, current, 0, 0)]
              else o == Status0(ESTATE) && Now() == old(Now()) && events == old(events)
    {
      if current == 0 {
        return Status0(ESTATE);
      }
      var i := FindThread(current);
      if i == MAX_THREADS {
        return Status0(ESTATE);
      }
      events := events + [Event(EVT_THREAD_BLOCK, current, 0, 0)];
      threads[i] := threads[i].(state := Blocked);
      blocked := blocked + 1;
      o := Swap(Ret(Result(OK, 0)));
    }

    method Create(priority: nat, ghost w: World) returns (res: Result)
      requires Valid() && w.t == Now() && Enabled(w, Call(Machine.Create(priority)))
      modifies this, threads
      ensures Valid() && lastSlot == old(lastSlot)
      ensures var n := Step(w, Call(Machine.Create(priority)));
              Now() == n.w.t && Return(res) == n.outcome && events == old(events) + n.events
    {
      var i := AllocSlot();
      if i == MAX_THREADS {
        return Result(ENOMEM, 0);
      }
      threads[i] := Thread(nextTid, Ready, priority, 0);
      nextTid := nextTid + 1;
      runnable := runnable + 1;
      res := Result(OK, threads[i].tid);
      events := events + [Event(EVT_THREAD_CREATE, threads[i].tid, 0, 0)];
    }

    /** A green thread yields. */
    method YieldCurrent(ghost w: World)
      requires Valid() && w.t == Now() && current != 0 && Enabled(w, Call(Yield))
      modifies this, threads
      ensures Valid() && lastSlot == old(lastSlot) && current == old(current)
      ensures Now().(current := 0) == Step(w, Call(Yield)).w.t
      ensures events == old(events) + Step(w, Call(Yield)).events
    {
      var i := FindThread(current);
      events := events + [Event(EVT_THREAD_YIELD, current, 0, 0)];
      threads[i] := threads[i].(state := Ready);
      runnable := runnable + 1;
    }

    method ReleaseSlot(i: nat)
      requires Valid() && i < MAX_THREADS
      modifies this, threads
      ensures Valid() && Now() == Release(old(Now()), i) && events == old(events) && lastSlot == old(lastSlot)
    {
      if threads[i].state == Ready && runnable > 0 {
        runnable := runnable - 1;
      } else if threads[i].state == Blocked && blocked > 0 {
        blocked := blocked - 1;
      }
      threads[i] := EMPTY_THREAD;
    }

    /** `gth_thread_join` of the main context up to the scheduling loop, which it
        needs only for a thread that has not ended. */
    method Join(tid: nat, ghost w: World) returns (o: Outcome)
      requires Valid() && current == 0 && w.t == Now()
      modifies this, threads
      ensures Valid() && events == old(events) && lastSlot == old(lastSlot)
      ensures Now() == JoinCall(w, tid).w.t && o == JoinCall(w, tid).outcome && JoinCall(w, tid).events == []
    {
      if tid == 0 {
        return Status0(EINVAL);
      }
      var i := FindThread(tid);
      if i == MAX_THREADS {
        return Status0(ENOTFOUND);
      }
      if !Terminal(threads[i].state) {
        return Swap(Ret(Result(OK, 0)));
      }
      o := Return(Result(OK, threads[i].retval));
      ReleaseSlot(i);
    }

    /** The end of a join, after the scheduling loop. */
    method JoinEnd(tid: nat, ghost w: World) returns (o: Outcome)
      requires Valid() && current == 0 && w.t == Now()
      modifies this, threads
      ensures Valid() && events == old(events) && lastSlot == old(lastSlot)
      ensures Now() == Reap(w, tid).w.t && o == Reap(w, tid).outcome && Reap(w, tid).events == []
    {
      var i := FindThread(tid);
      if i == MAX_THREADS {
        return Status0(ENOTFOUND);
      }
      o := Return(Result(OK, threads[i].retval));
      ReleaseSlot(i);
    }

    method Cancel(tid: nat, ghost w: World) returns (status: Status)
      requires Valid() && w.t == Now() && Enabled(w, Call(Machine.Cancel(tid)))
      modifies this, threads
      ensures Valid() && lastSlot == old(lastSlot)
      ensures var n := Step(w, Call(Machine.Cancel(tid)));
              Now() == n.w.t && Status0(status) == n.outcome && events == old(events) + n.events
    {
      if tid == 0 {
        return EINVAL;
      }
      var i := FindThread(tid);
      if i == MAX_THREADS {
        return ENOTFOUND;
      }
      if Terminal(threads[i].state) {
        return ESTATE;
      }
      events := events + [Event(EVT_THREAD_CANCEL, tid, 0, 0)];
      if threads[i].state == Blocked {
        var st := UnblockSlot(i);
      }
      SetThreadState(i, Canceled);
      threads[i] := threads[i].(retval := 0);
      status := OK;
    }

    // ----- context.c -----

    /** The trampoline once the thread function of slot `i` returned `v`. */
    method Exit(i: nat, v: nat, ghost w: World)
      requires Valid() && w.t == Now() && current != 0 && Enabled(w, Call(Machine.Exit(v))) && i == Me(w)
      modifies this, threads
      ensures Valid() && lastSlot == old(lastSlot)
      ensures Now() == Step(w, Call(Machine.Exit(v))).w.t
      ensures events == old(events) + Step(w, Call(Machine.Exit(v))).events
    {
      if threads[i].state != Canceled {
        threads[i] := threads[i].(retval := v, state := Done);
      } else {
        threads[i] := threads[i].(retval := 0);
      }
      events := events + [Event(EVT_THREAD_EXIT, threads[i].tid, threads[i].retval, 0)];
      current := 0;
    }

    // ----- scheduler.c -----

    method PickRoundRobin() returns (choice: Option<nat>)
      requires Valid()
      modifies this`lastSlot
      ensures Valid() && choice == RoundRobin(threads[..], old(lastSlot))
      ensures lastSlot == if choice.Some? then choice.value else old(lastSlot)
    {
      var start := (lastSlot + 1) % MAX_THREADS;
      var i := 0;
      while i < MAX_THREADS
        invariant i <= MAX_THREADS && lastSlot == old(lastSlot)
        invariant RoundRobinFrom(threads[..], lastSlot, 0) == RoundRobinFrom(threads[..], lastSlot, i)
      {
        var idx := (start + i) % MAX_THREADS;
        assert idx == After(lastSlot, i, MAX_THREADS);
        if threads[idx].state == Ready {
          lastSlot := idx;
          return Some(idx);
        }
        i := i + 1;
      }
      choice := None;
    }

    method PickPriority() returns (best: Option<nat>)
      requires Valid()
      ensures best == ByPriority(threads[..])
    {
      best := None;
      var i := 0;
      while i < MAX_THREADS
        invariant i <= MAX_THREADS && best == BestUpTo(threads[..], i)
      {
        if threads[i].state == Ready {
          if best.None? {
            best := Some(i);
          } else if threads[i].priority > threads[best.value].priority {
            best := Some(i);
          } else if threads[i].priority == threads[best.value].priority && threads[i].tid < threads[best.value].tid {
            best := Some(i);
          }
        }
        i := i + 1;
      }
    }

    /** `gth_scheduler_run_next` from the pick to the switch. */
    method Dispatch(i: nat)
      requires Valid() && i < MAX_THREADS
      modifies this, threads
      ensures Valid() && lastSlot == old(lastSlot)
      ensures Now() == DispatchAt(old(Now()), i) && events == old(events) + DispatchEvents(old(Now()), i)
    {
      events := events + [Event(EVT_CONTEXT_SWITCH, current, current, threads[i].tid)];
      threads[i] := threads[i].(state := Running);
      current := threads[i].tid;
      switches := switches + 1;
      if runnable > 0 {
        runnable := runnable - 1;
      }
    }

    /** How the mode decides: the trace in replay mode, otherwise the policy,
        which the fuzzer may perturb. */
    twostate predicate Chose(policy: Policy, mode: Mode, replay: Loader.ReplayState?, fuzz: FuzzState?,
                             new choice: Option<nat>)
      requires threads.Length == MAX_THREADS
      requires replay != null ==> replay.Valid()
      reads this, replay, fuzz
    {
      if mode == REPLAY && replay != null then
        && lastSlot == old(lastSlot) && old(replay.currentIdx) <= |replay.Trace()|
        && (choice, replay.Position()) == Replay.ReplayPick(replay.Trace(), old(replay.Position()), old(threads[..]))
      else
        var (normal, next) := PolicyPicker(policy)(old(threads[..]), old(lastSlot));
        && lastSlot == next
        && if mode == FUZZ && fuzz != null
           then fuzz.Perturbed(old(threads[..]), normal, old(fuzz.decisions), old(fuzz.drawn), choice)
                && SoundPick(old(threads[..]), choice)
           else choice == normal
    }

    method PickReadyThread(policy: Policy) returns (choice: Option<nat>)
      requires Valid()
      modifies this`lastSlot
      ensures Valid() && (choice, lastSlot) == PolicyPicker(policy)(threads[..], old(lastSlot))
      ensures SoundPick(threads[..], choice)
    {
      PickReadySound(policy, threads[..], lastSlot);
      if policy == RR {
        choice := PickRoundRobin();
      } else {
        choice := PickPriority();
      }
    }

    /** `gth_scheduler_pick_ready_thread_mode`. */
    method PickMode(policy: Policy, mode: Mode, replay: Loader.ReplayState?, fuzz: FuzzState?, ghost enough: nat)
      returns (choice: Option<nat>)
      requires Valid() && (replay != null ==> replay.Valid())
      requires fuzz != null ==> fuzz.Enough(threads[..], fuzz.drawn + 1, enough)
      modifies this`lastSlot, replay, fuzz
      ensures Valid() && (replay != null ==> replay.Valid())
      ensures Chose(policy, mode, replay, fuzz, choice)
      ensures choice.Some? ==> choice.value < MAX_THREADS && threads[choice.value].state in {Ready, Running}
    {
      if mode == REPLAY && replay != null {
        choice := replay.NextThread(threads[..]);
        return;
      }
      choice := PickReadyThread(policy);
      if mode == FUZZ && fuzz != null {
        choice := fuzz.PickThread(threads[..], choice, enough);
      }
    }

    /** `gth_scheduler_run_next` up to its switch, for a `yield` of the main context. */
    method RunNext(policy: Policy, mode: Mode, replay: Loader.ReplayState?, fuzz: FuzzState?,
                   ghost enough: nat, ghost w: World)
      returns (o: Outcome, ghost choice: Option<nat>)
      requires Valid() && (replay != null ==> replay.Valid()) && current == 0 && NobodyRuns()
      requires fuzz != null ==> fuzz.Enough(threads[..], fuzz.drawn + 1, enough)
      requires w.t == Now() && w.main.MYield?
      modifies this, threads, replay, fuzz
      ensures Valid() && (replay != null ==> replay.Valid())
      ensures Chose(policy, mode, replay, fuzz, choice) && Enabled(w, Sched(choice))
      ensures var n := Step(w, Sched(choice)); Now() == n.w.t && o == n.outcome && events == old(events) + n.events
    {
      var picked := PickMode(policy, mode, replay, fuzz, enough);
      choice := picked;
      if picked.None? {
        o := Status0(ENOTFOUND);
      } else {
        Dispatch(picked.value);
        o := Swap(Ret(Result(OK, 0)));
      }
    }

    /** One round of the loop of `gth_scheduler_run_until` up to its switch: when
        nobody is picked the answer is EBUSY. */
    method UntilRound(policy: Policy, mode: Mode, replay: Loader.ReplayState?, fuzz: FuzzState?,
                      ghost enough: nat, ghost w: World)
      returns (o: Outcome, ghost choice: Option<nat>)
      requires Valid() && (replay != null ==> replay.Valid()) && current == 0 && NobodyRuns()
      requires fuzz != null ==> fuzz.Enough(threads[..], fuzz.drawn + 1, enough)
      requires w.t == Now() && w.main.MJoin? && w.main.slot < MAX_THREADS && !Terminal(threads[w.main.slot].state)
      modifies this, threads, replay, fuzz
      ensures Valid() && (replay != null ==> replay.Valid())
      ensures Chose(policy, mode, replay, fuzz, choice) && Enabled(w, Sched(choice))
      ensures var n := Step(w, Sched(choice)); Now() == n.w.t && o == n.outcome && events == old(events) + n.events
    {
      var picked := PickMode(policy, mode, replay, fuzz, enough);
      choice := picked;
      if picked.None? {
        o := Status0(EBUSY);
      } else {
        Dispatch(picked.value);
        o := Swap(Ret(Result(OK, 0)));
      }
    }

    /** No slot is RUNNING, as always while the main context is current. */
    ghost predicate NobodyRuns()
      reads this, threads
    {
      forall i :: 0 <= i < threads.Length ==> threads[i].state != Running
    }

    // ----- Waking the longest waiter -----

    method WakeFirst(wq: WaitQueue, kind: nat, obj: nat)
      requires Valid() && wq.Valid() && wq.contents != []
      modifies this, threads, wq
      ensures Valid() && wq.Valid() && lastSlot == old(lastSlot)
      ensures Now() == Unblock(old(Now()), old(wq.contents)[0]) && wq.Value() == Pop(old(wq.Value()))
      ensures events == old(events) + [Event(kind, current, obj, 0)]
                        + UnblockEvents(old(Now()), old(wq.contents)[0])
    {
      var w := wq.Dequeue();
      if w != NO_SLOT {
        events := events + [Event(kind, current, obj, 0)];
        var st := UnblockSlot(w);
      }
    }

    // ----- mutex.c -----

    method MutexInit(mx: MutexObject)
      requires Valid() && mx.Valid()
      modifies mx, mx.wq
      ensures Valid() && mx.Valid() && mx.Value() == Initial(old(mx.Value()).kind, 0)
    {
      mx.initialized, mx.locked, mx.owner := true, false, 0;
      mx.wq.Init(WAIT_QUEUE_SLOTS);
    }

    /** `gth_mutex_lock` on the mutex at address `m`, up to its return or first block. */
    method Lock(mx: MutexObject, m: nat) returns (o: Outcome)
      requires Valid() && mx.Valid()
      modifies this, threads, mx, mx.wq, mx.wq.slots
      ensures Valid() && lastSlot == old(lastSlot) && mx.Valid()
      ensures var e := MutexLock(old(Now()), old(mx.Value()), m);
              Now() == e.t && mx.Value() == e.obj && o == e.outcome && events == old(events) + e.events
    {
      if !mx.initialized {
        return Status0(ESTATE);
      }
      if mx.locked {
        if mx.owner == current {
          return Status0(EBUSY);
        }
        var i := CurrentIndex();
        if i >= MAX_THREADS {
          return Status0(ESTATE);
        }
        var full := mx.wq.IsFull();
        if full {
          return Status0(EBUSY);
        }
        mx.wq.Enqueue(i);
        events := events + [Event(EVT_MUTEX_WAIT, current, m, 0)];
        var blocking := BlockCurrent();
        return Swap(InLock(m));
      }
      mx.locked, mx.owner := true, current;
      events := events + [Event(EVT_MUTEX_LOCK, current, m, 0)];
      o := Status0(OK);
    }

    /** One round of the retry loop, when the waiter in slot `i` is switched back in. */
    method Relock(mx: MutexObject, m: nat, i: nat) returns (o: Outcome)
      requires Valid() && mx.Valid() && i == CurrentSlot(Now()) < MAX_THREADS
      modifies this, threads, mx, mx.wq, mx.wq.slots
      ensures Valid() && lastSlot == old(lastSlot) && mx.Valid()
      ensures var e := MutexRelock(old(Now()), old(mx.Value()), m, i);
              Now() == e.t && mx.Value() == e.obj && o == e.outcome && events == old(events) + e.events
    {
      if mx.locked {
        var full := mx.wq.IsFull();
        if full {
          return Status0(EBUSY);
        }
        mx.wq.Enqueue(i);
        var blocking := BlockCurrent();
        return Swap(InLock(m));
      }
      mx.locked, mx.owner := true, current;
      events := events + [Event(EVT_MUTEX_LOCK, current, m, 0)];
      o := Status0(OK);
    }

    method Trylock(mx: MutexObject) returns (o: Outcome)
      requires Valid() && mx.Valid()
      modifies mx
      ensures Valid() && mx.Valid()
      ensures var e := MutexTrylock(Now(), old(mx.Value()));
              Now() == e.t && mx.Value() == e.obj && o == e.outcome && e.events == []
    {
      if !mx.initialized {
        return Status0(ESTATE);
      }
      if mx.locked {
        return Status0(EBUSY);
      }
      mx.locked, mx.owner := true, current;
      o := Status0(OK);
    }

    method Unlock(mx: MutexObject, m: nat) returns (o: Outcome)
      requires Valid() && mx.Valid()
      modifies this, threads, mx, mx.wq
      ensures Valid() && mx.Valid() && lastSlot == old(lastSlot)
      ensures var e := MutexUnlock(old(Now()), old(mx.Value()), m);
              Now() == e.t && mx.Value() == e.obj && o == e.outcome && events == old(events) + e.events
    {
      if !mx.initialized || !mx.locked || (mx.owner != 0 && mx.owner != current) {
        return Status0(ESTATE);
      }
      mx.locked, mx.owner := false, 0;
      var empty := mx.wq.IsEmpty();
      if !empty {
        WakeFirst(mx.wq, EVT_MUTEX_WAKE, m);
      }
      events := events + [Event(EVT_MUTEX_UNLOCK, current, m, 0)];
      o := Status0(OK);
    }

    method DestroyMutex(mx: MutexObject) returns (o: Outcome)
      requires Valid() && mx.Valid()
      modifies mx, mx.wq
      ensures Valid() && mx.Valid()
      ensures var e := MutexDestroy(Now(), old(mx.Value()));
              Now() == e.t && mx.Value() == e.obj && o == e.outcome && e.events == []
    {
      if !mx.initialized {
        return Status0(ESTATE);
      }
      if mx.locked {
        return Status0(EBUSY);
      }
      var empty := mx.wq.IsEmpty();
      if !empty {
        return Status0(EBUSY);
      }
      mx.initialized, mx.locked, mx.owner := false, false, 0;
      mx.wq.Init(0);
      o := Status0(OK);
    }

    // ----- sem.c -----

    method SemInit(sm: SemObject, count: nat)
      requires Valid() && sm.Valid()
      modifies sm, sm.wq
      ensures Valid() && sm.Valid() && sm.Value() == Initial(old(sm.Value()).kind, count)
    {
      sm.initialized, sm.count := true, count;
      sm.wq.Init(52);
    }

    method DestroySem(sm: SemObject) returns (o: Outcome)
      requires Valid() && sm.Valid()
      modifies sm, sm.wq
      ensures Valid() && sm.Valid()
      ensures var e := SemDestroy(Now(), old(sm.Value()));
              Now() == e.t && sm.Value() == e.obj && o == e.outcome && e.events == []
    {
      if !sm.initialized {
        return Status0(ESTATE);
      }
      var empty := sm.wq.IsEmpty();
      if !empty {
        return Status0(EBUSY);
      }
      sm.initialized, sm.count := false, 0;
      sm.wq.Init(0);
      o := Status0(OK);
    }

    method Wait(sm: SemObject, s: nat) returns (o: Outcome)
      requires Valid() && sm.Valid()
      modifies this, threads, sm, sm.wq, sm.wq.slots
      ensures Valid() && lastSlot == old(lastSlot) && sm.Valid()
      ensures var e := SemWait(old(Now()), old(sm.Value()), s);
              Now() == e.t && sm.Value() == e.obj && o == e.outcome && events == old(events) + e.events
    {
      if !sm.initialized {
        return Status0(ESTATE);
      }
      if sm.count == 0 {
        var i := CurrentIndex();
        if i >= MAX_THREADS {
          return Status0(ESTATE);
        }
        var full := sm.wq.IsFull();
        if full {
          return Status0(EBUSY);
        }
        threads[i] := threads[i].(state := Blocked);
        blocked := blocked + 1;
        sm.wq.Enqueue(i);
        events := events + [Event(EVT_SEM_WAIT, current, s, 0)];
        return Swap(Ret(Result(OK, 0)));
      }
      sm.count := sm.count - 1;
      events := events + [Event(EVT_SEM_WAIT, current, s, sm.count + 1)];
      o := Status0(OK);
    }

    method Post(sm: SemObject, s: nat) returns (o: Outcome)
      requires Valid() && sm.Valid()
      modifies this, threads, sm, sm.wq
      ensures Valid() && lastSlot == old(lastSlot) && sm.Valid()
      ensures var e := SemPost(old(Now()), old(sm.Value()), s);
              Now() == e.t && sm.Value() == e.obj && o == e.outcome && events == old(events) + e.events
    {
      if !sm.initialized {
        return Status0(ESTATE);
      }
      var empty := sm.wq.IsEmpty();
      if !empty {
        WakeFirst(sm.wq, EVT_SEM_WAKE, s);
      } else {
        if sm.count >= UINT32_MAX {
          return Status0(EINVAL);
        }
        sm.count := sm.count + 1;
      }
      events := events + [Event(EVT_SEM_POST, current, s, sm.count)];
      o := Status0(OK);
    }

    // ----- cond.c -----

    method CondInit(cv: CondObject)
      requires Valid() && cv.Valid()
      modifies cv, cv.wq
      ensures Valid() && cv.Valid() && cv.Value() == Initial(old(cv.Value()).kind, 0)
    {
      cv.initialized := true;
      cv.wq.Init(52);
    }

    method DestroyCond(cv: CondObject) returns (o: Outcome)
      requires Valid() && cv.Valid()
      modifies cv, cv.wq
      ensures Valid() && cv.Valid()
      ensures var e := CondDestroy(Now(), old(cv.Value()));
              Now() == e.t && cv.Value() == e.obj && o == e.outcome && e.events == []
    {
      if !cv.initialized {
        return Status0(ESTATE);
      }
      var empty := cv.wq.IsEmpty();
      if !empty {
        return Status0(EBUSY);
      }
      cv.initialized := false;
      cv.wq.Init(0);
      o := Status0(OK);
    }

    /** `gth_cond_wait` up to its switch, with the rollback of a failed unlock. */
    method CondWait(cv: CondObject, mx: MutexObject, c: nat, m: nat) returns (o: Outcome)
      requires Valid() && cv.Valid() && mx.Valid() && cv.wq != mx.wq && cv.wq.slots != mx.wq.slots
      modifies this, threads, cv.wq, cv.wq.slots, mx, mx.wq
      ensures Valid() && lastSlot == old(lastSlot) && cv.Valid() && mx.Valid()
      ensures var e := CondAwait(old(Now()), old(cv.Value()), old(mx.Value()), c, m);
              && Now() == e.t && cv.Value() == e.cv && mx.Value() == e.mx
              && o == e.outcome && events == old(events) + e.events
    {
      if !cv.initialized {
        return Status0(ESTATE);
      }
      var i := CurrentIndex();
      if i >= MAX_THREADS {
        return Status0(ESTATE);
      }
      var full := cv.wq.IsFull();
      if full {
        return Status0(EBUSY);
      }
      o := ReleaseAndWait(cv, mx, i, c, m);
    }

    /** The wait of slot `i`, once nothing stands against it. */
    method ReleaseAndWait(cv: CondObject, mx: MutexObject, i: nat, c: nat, m: nat) returns (o: Outcome)
      requires Valid() && cv.Valid() && mx.Valid() && cv.wq != mx.wq && cv.wq.slots != mx.wq.slots
      requires cv.initialized && i == CurrentSlot(Now()) < MAX_THREADS && !Full(cv.wq.Value())
      modifies this, threads, cv.wq, cv.wq.slots, mx, mx.wq
      ensures Valid() && cv.Valid() && mx.Valid() && lastSlot == old(lastSlot)
      ensures var e := CondAwait(old(Now()), old(cv.Value()), old(mx.Value()), c, m);
              && Now() == e.t && cv.Value() == e.cv && mx.Value() == e.mx
              && o == e.outcome && events == old(events) + e.events
    {
      Announce(cv.wq, i, c);
      o := Unlock(mx, m);
      if o != Status0(OK) {
        Retract(cv.wq, i);
        return;
      }
      o := Swap(InCond(m));
    }

    /** The waiter in slot `i` goes BLOCKED and joins the queue, before the mutex is freed. */
    method Announce(wq: WaitQueue, i: nat, c: nat)
      requires Valid() && wq.Valid() && i < MAX_THREADS
      modifies this, threads, wq, wq.slots
      ensures lastSlot == old(lastSlot)
      ensures Valid() && wq.Valid() && Now() == BlockAt(old(Now()), i) && wq.Value() == Push(old(wq.Value()), i)
      ensures events == old(events) + [Event(EVT_COND_WAIT, current, c, 0)]
    {
      threads[i] := threads[i].(state := Blocked);
      blocked := blocked + 1;
      wq.Enqueue(i);
      events := events + [Event(EVT_COND_WAIT, current, c, 0)];
    }

    /** The rollback: the waiter is RUNNING again and leaves the queue. */
    method Retract(wq: WaitQueue, i: nat)
      requires Valid() && wq.Valid() && i < MAX_THREADS
      modifies this, threads, wq, wq.slots
      ensures Valid() && lastSlot == old(lastSlot) && wq.Valid() && events == old(events)
      ensures Now() == WithState(old(Now()), i, Running).(blocked := Dec(old(blocked)))
      ensures wq.Value() == old(wq.Value()).(items := RemoveFirst(old(wq.contents), i))
    {
      threads[i] := threads[i].(state := Running);
      if blocked > 0 {
        blocked := blocked - 1;
      }
      var removed := wq.Remove(i);
    }

    method Signal(cv: CondObject, c: nat) returns (o: Outcome)
      requires Valid() && cv.Valid()
      modifies this, threads, cv.wq
      ensures Valid() && lastSlot == old(lastSlot) && cv.Valid()
      ensures var e := CondSignal(old(Now()), old(cv.Value()), c);
              Now() == e.t && cv.Value() == e.obj && o == e.outcome && events == old(events) + e.events
    {
      if !cv.initialized {
        return Status0(ESTATE);
      }
      var empty := cv.wq.IsEmpty();
      if !empty {
        var w := cv.wq.Dequeue();
        if w != NO_SLOT {
          events := events + [Event(EVT_COND_SIGNAL, current, c, threads[w].tid)];
          var st := UnblockSlot(w);
        }
      }
      o := Status0(OK);
    }

    method Broadcast(cv: CondObject, c: nat) returns (o: Outcome)
      requires Valid() && cv.Valid()
      modifies this, threads, cv.wq
      ensures Valid() && lastSlot == old(lastSlot) && cv.Valid()
      ensures var e := CondBroadcast(old(Now()), old(cv.Value()), c);
              Now() == e.t && cv.Value() == e.obj && o == e.outcome && events == old(events) + e.events
    {
      if !cv.initialized {
        return Status0(ESTATE);
      }
      var woken := Drain(cv.wq);
      events := events + [Event(EVT_COND_BROADCAST, current, c, woken)];
      o := Status0(OK);
    }

    /** The loop of a broadcast: wake waiters until the queue is empty. */
    method Drain(wq: WaitQueue) returns (woken: nat)
      requires Valid() && wq.Valid()
      modifies this, threads, wq
      ensures Valid() && lastSlot == old(lastSlot) && wq.Valid() && current == old(current)
      ensures wq.Value() == old(wq.Value()).(items := []) && woken == |old(wq.contents)|
      ensures Now() == UnblockAll(old(Now()), old(wq.contents))
      ensures events == old(events) + UnblockAllEvents(old(Now()), old(wq.contents))
    {
      ghost var t0, ws, es := Now(), wq.contents, events;
      woken := 0;
      var empty := wq.IsEmpty();
      while !empty
        invariant Valid() && wq.Valid() && (empty <==> wq.contents == [])
        invariant wq.capacity == old(wq.capacity) && current == t0.current && lastSlot == old(lastSlot)
        invariant woken + |wq.contents| == |ws|
        invariant Draining(t0, ws, es, Now(), wq.contents, events)
        decreases |wq.contents|
      {
        DrainStep(t0, ws, es, Now(), wq.contents, events);
        var w := wq.Dequeue();
        if w != NO_SLOT {
          woken := woken + 1;
          var st := UnblockSlot(w);
        }
        empty := wq.IsEmpty();
      }
    }
  }

  /** Waking `rest` from here gives what waking `ws` from the start gives. */
  ghost predicate Draining(t0: Table, ws: seq<nat>, es: seq<Event>, t: Table, rest: seq<nat>, events: seq<Event>) {
    && UnblockAll(t, rest) == UnblockAll(t0, ws)
    && events + UnblockAllEvents(t, rest) == es + UnblockAllEvents(t0, ws)
  }

  lemma DrainStep(t0: Table, ws: seq<nat>, es: seq<Event>, t: Table, rest: seq<nat>, events: seq<Event>)
    requires rest != [] && Draining(t0, ws, es, t, rest, events)
    ensures Draining(t0, ws, es, Unblock(t, rest[0]), rest[1..], events + UnblockEvents(t, rest[0]))
  {
    var first, others := UnblockEvents(t, rest[0]), UnblockAllEvents(Unblock(t, rest[0]), rest[1..]);
    assert (events + first) + others == events + (first + others);
  }
}
