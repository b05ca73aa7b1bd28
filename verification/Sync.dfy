/** The blocking primitives. Each function is the code between two context
    switches: the effect on the thread table and on the object, how control
    leaves, and the trace events in order. */
module Sync {
  import opened Types
  import opened Threads

  // ----- Wait queues as sequences -----

  predicate Full(q: Queue) {
    |q.items| >= q.cap
  }

  function Push(q: Queue, x: nat): Queue {
    if Full(q) then q else q.(items := q.items + [x])
  }

  function Pop(q: Queue): Queue
    requires q.items != []
  {
    q.(items := q.items[1..])
  }

  /** Delete the first occurrence of `x`. */
  function RemoveFirst(s: seq<nat>, x: nat): seq<nat> {
    if s == [] then [] else if s[0] == x then s[1..] else [s[0]] + RemoveFirst(s[1..], x)
  }

  const EMPTY_QUEUE := Queue(WAIT_QUEUE_SLOTS, [])
  const ZERO_QUEUE := Queue(0, [])

  // ----- Mutex -----

  function Acquire(t: Table, mx: Object, m: nat): Effect
    requires mx.kind.Mutex?
  {
    Effect(t, mx.(kind := Mutex(true, t.current)), Status0(OK),
           [Event(EVT_MUTEX_LOCK, t.current, m, 0)])
  }

  /** `gth_mutex_lock` up to its return or its first block. */
  function MutexLock(t: Table, mx: Object, m: nat): (e: Effect)
    requires mx.kind.Mutex?
    ensures e.obj.kind.Mutex?
  {
    if !mx.initialized then Effect(t, mx, Status0(ESTATE), [])
    else if !mx.kind.locked then Acquire(t, mx, m)
    else if mx.kind.owner == t.current then Effect(t, mx, Status0(EBUSY), [])
    else
      var i := CurrentSlot(t);
      if i >= |t.threads| then Effect(t, mx, Status0(ESTATE), [])
      else if Full(mx.q) then Effect(t, mx, Status0(EBUSY), [])
      else
        Effect(BlockAt(t, i), mx.(q := Push(mx.q, i)), Swap(InLock(m)),
               [Event(EVT_MUTEX_WAIT, t.current, m, 0), Event(EVT_THREAD_BLOCK, t.current, 0, 0)])
  }

  /** One round of the retry loop, entered when slot `i` is switched back in. */
  function MutexRelock(t: Table, mx: Object, m: nat, i: nat): (e: Effect)
    requires mx.kind.Mutex? && i < |t.threads|
    ensures e.obj.kind.Mutex?
  {
    if !mx.kind.locked then Acquire(t, mx, m)
    else if Full(mx.q) then Effect(t, mx, Status0(EBUSY), [])
    else
      Effect(BlockAt(t, i), mx.(q := Push(mx.q, i)), Swap(InLock(m)),
             [Event(EVT_THREAD_BLOCK, t.current, 0, 0)])
  }

  /** `gth_mutex_trylock`; it records no event. */
  function MutexTrylock(t: Table, mx: Object): (e: Effect)
    requires mx.kind.Mutex?
    ensures e.obj.kind.Mutex?
  {
    if !mx.initialized then Effect(t, mx, Status0(ESTATE), [])
    else if mx.kind.locked then Effect(t, mx, Status0(EBUSY), [])
    else Effect(t, mx.(kind := Mutex(true, t.current)), Status0(OK), [])
  }

  predicate MayUnlock(t: Table, mx: Object)
    requires mx.kind.Mutex?
  {
    mx.initialized && mx.kind.locked && (mx.kind.owner == 0 || mx.kind.owner == t.current)
  }

  function MutexUnlock(t: Table, mx: Object, m: nat): (e: Effect)
    requires mx.kind.Mutex?
    ensures e.obj.kind.Mutex?
  {
    if !MayUnlock(t, mx) then Effect(t, mx, Status0(ESTATE), [])
    else
      var mx1 := mx.(kind := Mutex(false, 0));
      var done := [Event(EVT_MUTEX_UNLOCK, t.current, m, 0)];
      if mx.q.items == [] then Effect(t, mx1, Status0(OK), done)
      else
        var w := mx.q.items[0];
        Effect(Unblock(t, w), mx1.(q := Pop(mx.q)), Status0(OK),
               [Event(EVT_MUTEX_WAKE, t.current, m, 0)] + UnblockEvents(t, w) + done)
  }

  function MutexDestroy(t: Table, mx: Object): (e: Effect)
    requires mx.kind.Mutex?
    ensures e.obj.kind.Mutex?
  {
    if !mx.initialized then Effect(t, mx, Status0(ESTATE), [])
    else if mx.kind.locked || mx.q.items != [] then Effect(t, mx, Status0(EBUSY), [])
    else Effect(t, Object(false, Mutex(false, 0), ZERO_QUEUE), Status0(OK), [])
  }

  // ----- Semaphore -----

  function SemWait(t: Table, sm: Object, s: nat): (e: Effect)
    requires sm.kind.Sem?
    ensures e.obj.kind.Sem?
  {
    if !sm.initialized then Effect(t, sm, Status0(ESTATE), [])
    else if sm.kind.count == 0 then
      var i := CurrentSlot(t);
      if i >= |t.threads| then Effect(t, sm, Status0(ESTATE), [])
      else if Full(sm.q) then Effect(t, sm, Status0(EBUSY), [])
      else
        Effect(BlockAt(t, i), sm.(q := Push(sm.q, i)), Swap(Ret(Result(OK, 0))),
               [Event(EVT_SEM_WAIT, t.current, s, 0)])
    else
      Effect(t, sm.(kind := Sem(sm.kind.count - 1)), Status0(OK),
             [Event(EVT_SEM_WAIT, t.current, s, sm.kind.count)])
  }

  function SemPost(t: Table, sm: Object, s: nat): (e: Effect)
    requires sm.kind.Sem?
    ensures e.obj.kind.Sem?
  {
    if !sm.initialized then Effect(t, sm, Status0(ESTATE), [])
    else if sm.q.items != [] then
      var w := sm.q.items[0];
      Effect(Unblock(t, w), sm.(q := Pop(sm.q)), Status0(OK),
             [Event(EVT_SEM_WAKE, t.current, s, 0)] + UnblockEvents(t, w)
             + [Event(EVT_SEM_POST, t.current, s, sm.kind.count)])
    else if sm.kind.count >= UINT32_MAX then Effect(t, sm, Status0(EINVAL), [])
    else
      Effect(t, sm.(kind := Sem(sm.kind.count + 1)), Status0(OK),
             [Event(EVT_SEM_POST, t.current, s, sm.kind.count + 1)])
  }

  function SemDestroy(t: Table, sm: Object): (e: Effect)
    requires sm.kind.Sem?
    ensures e.obj.kind.Sem?
  {
    if !sm.initialized then Effect(t, sm, Status0(ESTATE), [])
    else if sm.q.items != [] then Effect(t, sm, Status0(EBUSY), [])
    else Effect(t, Object(false, Sem(0), ZERO_QUEUE), Status0(OK), [])
  }

  // ----- Condition variable -----

  /** A condition wait touches two objects. */
  datatype WaitEffect = WaitEffect(t: Table, cv: Object, mx: Object, outcome: Outcome, events: seq<Event>)

  function CondAwait(t: Table, cv: Object, mx: Object, c: nat, m: nat): (e: WaitEffect)
    requires cv.kind.Cond? && mx.kind.Mutex?
    ensures e.cv.kind.Cond? && e.mx.kind.Mutex?
  {
    var i := CurrentSlot(t);
    if !cv.initialized then WaitEffect(t, cv, mx, Status0(ESTATE), [])
    else if i >= |t.threads| then WaitEffect(t, cv, mx, Status0(ESTATE), [])
    else if Full(cv.q) then WaitEffect(t, cv, mx, Status0(EBUSY), [])
    else
      var t1 := BlockAt(t, i);
      var q1 := Push(cv.q, i);
      var started := [Event(EVT_COND_WAIT, t.current, c, 0)];
      var u := MutexUnlock(t1, mx, m);
      if u.outcome != Status0(OK) then
        WaitEffect(WithState(u.t, i, Running).(blocked := Dec(u.t.blocked)),
                   cv.(q := q1.(items := RemoveFirst(q1.items, i))), u.obj, u.outcome, started + u.events)
      else
        WaitEffect(u.t, cv.(q := q1), u.obj, Swap(InCond(m)), started + u.events)
  }

  function CondSignal(t: Table, cv: Object, c: nat): (e: Effect)
    requires cv.kind.Cond?
    ensures e.obj.kind.Cond?
  {
    if !cv.initialized then Effect(t, cv, Status0(ESTATE), [])
    else if cv.q.items == [] then Effect(t, cv, Status0(OK), [])
    else
      var w := cv.q.items[0];
      var target := if w < |t.threads| then t.threads[w].tid else 0;
      Effect(Unblock(t, w), cv.(q := Pop(cv.q)), Status0(OK),
             [Event(EVT_COND_SIGNAL, t.current, c, target)] + UnblockEvents(t, w))
  }

  /** Unblock the slots of `ws` in order. */
  function UnblockAll(t: Table, ws: seq<nat>): Table
    decreases |ws|
  {
    if ws == [] then t else UnblockAll(Unblock(t, ws[0]), ws[1..])
  }

  function UnblockAllEvents(t: Table, ws: seq<nat>): seq<Event>
    decreases |ws|
  {
    if ws == [] then [] else UnblockEvents(t, ws[0]) + UnblockAllEvents(Unblock(t, ws[0]), ws[1..])
  }

  function CondBroadcast(t: Table, cv: Object, c: nat): (e: Effect)
    requires cv.kind.Cond?
    ensures e.obj.kind.Cond?
  {
    if !cv.initialized then Effect(t, cv, Status0(ESTATE), [])
    else
      Effect(UnblockAll(t, cv.q.items), cv.(q := cv.q.(items := [])), Status0(OK),
             UnblockAllEvents(t, cv.q.items)
             + [Event(EVT_COND_BROADCAST, t.current, c, |cv.q.items|)])
  }

  function CondDestroy(t: Table, cv: Object): (e: Effect)
    requires cv.kind.Cond?
    ensures e.obj.kind.Cond?
  {
    if !cv.initialized then Effect(t, cv, Status0(ESTATE), [])
    else if cv.q.items != [] then Effect(t, cv, Status0(EBUSY), [])
    else Effect(t, Object(false, Cond, ZERO_QUEUE), Status0(OK), [])
  }
}
