/** The thread table: lookup, slot allocation, state changes with their
    incremental counters, and the thread lifecycle calls. */
module Threads {
  import opened Types

  // ----- Lookup -----

  predicate Live(th: Thread) {
    th.state != Empty
  }

  predicate Named(th: Thread, tid: nat) {
    Live(th) && th.tid == tid
  }

  function FindFrom(ts: seq<Thread>, tid: nat, from: nat): (i: nat)
    requires from <= |ts|
    ensures from <= i <= |ts|
    ensures i < |ts| ==> Named(ts[i], tid)
    ensures forall j :: from <= j < i ==> !Named(ts[j], tid)
    decreases |ts| - from
  {
    if from == |ts| || Named(ts[from], tid) then from else FindFrom(ts, tid, from + 1)
  }

  /** The first live slot that carries `tid`, or `|ts|`. */
  function FindSlot(ts: seq<Thread>, tid: nat): (i: nat)
    ensures i <= |ts|
    ensures i < |ts| ==> Named(ts[i], tid)
    ensures forall j :: 0 <= j < i ==> !Named(ts[j], tid)
  {
    FindFrom(ts, tid, 0)
  }

  function EmptyFrom(ts: seq<Thread>, from: nat): (i: nat)
    requires from <= |ts|
    ensures from <= i <= |ts|
    ensures i < |ts| ==> !Live(ts[i])
    ensures forall j :: from <= j < i ==> Live(ts[j])
    decreases |ts| - from
  {
    if from == |ts| || !Live(ts[from]) then from else EmptyFrom(ts, from + 1)
  }

  /** The first free slot, or `|ts|`. */
  function EmptySlot(ts: seq<Thread>): (i: nat)
    ensures i <= |ts|
    ensures i < |ts| ==> !Live(ts[i])
    ensures forall j :: 0 <= j < i ==> Live(ts[j])
  {
    EmptyFrom(ts, 0)
  }

  function CurrentSlot(t: Table): (i: nat)
    ensures i < |t.threads| ==> t.current != 0 && Named(t.threads[i], t.current)
  {
    if t.current == 0 then |t.threads| else FindSlot(t.threads, t.current)
  }

  // ----- Counting -----

  function One(b: bool): nat {
    if b then 1 else 0
  }

  function Count(ts: seq<Thread>, st: ThreadState): nat {
    if ts == [] then 0 else Count(ts[..|ts| - 1], st) + One(ts[|ts| - 1].state == st)
  }

  lemma {:induction false} CountUpdate(ts: seq<Thread>, i: nat, th: Thread, st: ThreadState)
    requires i < |ts|
    ensures Count(ts[i := th], st) + One(ts[i].state == st) == Count(ts, st) + One(th.state == st)
    decreases |ts|
  {
    var n := |ts| - 1;
    if i == n {
      assert ts[i := th][..n] == ts[..n];
    } else {
      assert ts[i := th][..n] == ts[..n][i := th];
      CountUpdate(ts[..n], i, th, st);
    }
  }

  lemma CountPositive(ts: seq<Thread>, i: nat, st: ThreadState)
    requires i < |ts| && ts[i].state == st
    ensures Count(ts, st) > 0
  {
    var other := if st == Empty then Ready else Empty;
    CountUpdate(ts, i, ts[i].(state := other), st);
  }

  lemma {:induction false} CountZero(ts: seq<Thread>, st: ThreadState)
    requires forall i :: 0 <= i < |ts| ==> ts[i].state != st
    ensures Count(ts, st) == 0
    decreases |ts|
  {
    if ts == [] {
    } else {
      CountZero(ts[..|ts| - 1], st);
    }
  }

  lemma {:induction false} CountBound(ts: seq<Thread>, st: ThreadState)
    ensures Count(ts, st) <= |ts|
    decreases |ts|
  {
    if ts == [] {
    } else {
      CountBound(ts[..|ts| - 1], st);
    }
  }

  // ----- State changes -----

  /** The decrement of a counter behind its "greater than 0" guard. */
  function Dec(n: nat): nat {
    if n > 0 then n - 1 else n
  }

  function SetThread(t: Table, i: nat, th: Thread): Table
    requires i < |t.threads|
  {
    t.(threads := t.threads[i := th])
  }

  function WithState(t: Table, i: nat, st: ThreadState): Table
    requires i < |t.threads|
  {
    SetThread(t, i, t.threads[i].(state := st))
  }

  /** `gth_runtime_account_state_change`. */
  function Account(t: Table, from: ThreadState, to: ThreadState): Table {
    if from == to then t
    else
      var t1 := if from == Ready then t.(runnable := Dec(t.runnable))
                else if from == Blocked then t.(blocked := Dec(t.blocked)) else t;
      if to == Ready then t1.(runnable := t1.runnable + 1)
      else if to == Blocked then t1.(blocked := t1.blocked + 1) else t1
  }

  /** `gth_runtime_set_thread_state`. */
  function SetState(t: Table, i: nat, st: ThreadState): Table
    requires i < |t.threads|
  {
    WithState(Account(t, t.threads[i].state, st), i, st)
  }

  /** The running thread in slot `i` marks itself BLOCKED. */
  function BlockAt(t: Table, i: nat): Table
    requires i < |t.threads|
  {
    WithState(t, i, Blocked).(blocked := t.blocked + 1)
  }

  /** `gth_thread_unblock_slot`: only a BLOCKED slot changes. */
  function Unblock(t: Table, i: nat): Table {
    if i < |t.threads| && t.threads[i].state == Blocked then
      WithState(t, i, Ready).(blocked := Dec(t.blocked), runnable := t.runnable + 1)
    else t
  }

  function UnblockStatus(t: Table, i: nat): Status {
    if i >= |t.threads| then EINVAL
    else if t.threads[i].state != Blocked then ESTATE
    else OK
  }

  function UnblockEvents(t: Table, i: nat): seq<Event> {
    if i < |t.threads| && t.threads[i].state == Blocked then
      [Event(EVT_THREAD_UNBLOCK, t.threads[i].tid, 0, 0)]
    else []
  }

  // ----- Lifecycle -----

  /** A table change with the status it returns and the events it records. */
  datatype Change = Change(t: Table, res: Result, events: seq<Event>)

  function CreateThread(t: Table, priority: nat): Change {
    var i := EmptySlot(t.threads);
    if i == |t.threads| then Change(t, Result(ENOMEM, 0), [])
    else
      Change(SetThread(t, i, Thread(t.nextTid, Ready, priority, 0))
             .(nextTid := t.nextTid + 1, runnable := t.runnable + 1),
             Result(OK, t.nextTid),
             [Event(EVT_THREAD_CREATE, t.nextTid, 0, 0)])
  }

  /** A green thread yields: it becomes READY before control leaves it. */
  function YieldAt(t: Table, i: nat): Table
    requires i < |t.threads|
  {
    WithState(t, i, Ready).(runnable := t.runnable + 1)
  }

  /** `gth_thread_release_slot`. */
  function Release(t: Table, i: nat): Table
    requires i < |t.threads|
  {
    var t1 := if t.threads[i].state == Ready then t.(runnable := Dec(t.runnable))
              else if t.threads[i].state == Blocked then t.(blocked := Dec(t.blocked)) else t;
    SetThread(t1, i, EMPTY_THREAD)
  }

  function CancelThread(t: Table, tid: nat): Change {
    var i := FindSlot(t.threads, tid);
    if tid == 0 then Change(t, Result(EINVAL, 0), [])
    else if i == |t.threads| then Change(t, Result(ENOTFOUND, 0), [])
    else if Terminal(t.threads[i].state) then Change(t, Result(ESTATE, 0), [])
    else
      var t1 := Unblock(t, i);
      var t2 := SetState(t1, i, Canceled);
      Change(SetThread(t2, i, t2.threads[i].(retval := 0)), Result(OK, 0),
             [Event(EVT_THREAD_CANCEL, tid, 0, 0)] + UnblockEvents(t, i))
  }

  /** The trampoline after the thread function returned `v`. */
  function ExitAt(t: Table, i: nat, v: nat): Table
    requires i < |t.threads|
  {
    var th := t.threads[i];
    SetThread(t, i, if th.state != Canceled then th.(retval := v, state := Done) else th.(retval := 0))
    .(current := 0)
  }

  function ExitEvents(t: Table, i: nat, v: nat): seq<Event>
    requires i < |t.threads|
  {
    [Event(EVT_THREAD_EXIT, t.threads[i].tid, if t.threads[i].state != Canceled then v else 0, 0)]
  }

  /** `gth_scheduler_run_next` up to the switch into slot `i`. */
  function DispatchAt(t: Table, i: nat): Table
    requires i < |t.threads|
  {
    WithState(t, i, Running)
    .(current := t.threads[i].tid, switches := t.switches + 1, runnable := Dec(t.runnable))
  }

  function DispatchEvents(t: Table, i: nat): seq<Event>
    requires i < |t.threads|
  {
    [Event(EVT_CONTEXT_SWITCH, t.current, t.current, t.threads[i].tid)]
  }
}
