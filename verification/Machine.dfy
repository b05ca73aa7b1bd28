/** The runtime as one cooperative step machine. A step is the code between
    two context switches, cut further at every library call, so the facts
    proved of every state hold at every call of every thread. */
module Machine {
  import opened Types
  import opened Threads
  import opened Sync

  /** What the main context is doing: running its own code after a call
      returned `res`, inside `yield`, or inside the scheduling loop of a join
      on the thread `tid` held in `slot`. */
  datatype MainControl = MRet(res: Result) | MYield | MJoin(tid: nat, slot: nat)

  /** `ctl[i]` is the resume point saved in the context of slot `i`. */
  datatype World = World(t: Table, ctl: seq<Resume>, main: MainControl, objs: seq<Object>)

  datatype ObjectCall = Lock | Trylock | Unlock | Wait | Post | Signal | Broadcast | Destroy

  datatype Op =
    | Create(priority: nat)
    | Yield
    | Exit(value: nat)
    | Join(tid: nat)
    | Cancel(tid: nat)
    | Init(k: nat, count: nat)
    | On(k: nat, call: ObjectCall)
    | CondWait(c: nat, m: nat)

  /** The calling context makes a call, it goes on inside a suspended call, or
      the scheduler has picked a slot (or none). */
  datatype Move = Call(op: Op) | Continue | Sched(choice: Option<nat>)

  /** The next world, the outcome for the context that moved, and the events. */
  datatype Next = Next(w: World, outcome: Outcome, events: seq<Event>)

  // ----- Calls on one object -----

  predicate Fits(kind: Kind, call: ObjectCall) {
    match call
    case Lock => kind.Mutex?
    case Trylock => kind.Mutex?
    case Unlock => kind.Mutex?
    case Wait => kind.Sem?
    case Post => kind.Sem?
    case Signal => kind.Cond?
    case Broadcast => kind.Cond?
    case Destroy => true
  }

  function Perform(t: Table, o: Object, k: nat, call: ObjectCall): Effect
    requires Fits(o.kind, call)
  {
    match call
    case Lock => MutexLock(t, o, k)
    case Trylock => MutexTrylock(t, o)
    case Unlock => MutexUnlock(t, o, k)
    case Wait => SemWait(t, o, k)
    case Post => SemPost(t, o, k)
    case Signal => CondSignal(t, o, k)
    case Broadcast => CondBroadcast(t, o, k)
    case Destroy =>
      match o.kind
      case Mutex(_, _) => MutexDestroy(t, o)
      case Sem(_) => SemDestroy(t, o)
      case Cond => CondDestroy(t, o)
  }

  function Initial(kind: Kind, count: nat): Object {
    Object(true, match kind case Mutex(_, _) => Mutex(false, 0) case Sem(_) => Sem(count) case Cond => Cond,
           EMPTY_QUEUE)
  }

  // ----- Which moves are possible -----

  /** The call names objects of the right kind. */
  predicate WellTyped(w: World, op: Op) {
    match op
    case On(k, call) => k < |w.objs| && Fits(w.objs[k].kind, call)
    case Init(k, _) => k < |w.objs|
    case CondWait(c, m) => c < |w.objs| && m < |w.objs| && w.objs[c].kind.Cond? && w.objs[m].kind.Mutex?
    case _ => true
  }

  function Me(w: World): nat {
    CurrentSlot(w.t)
  }

  predicate Enabled(w: World, mv: Move) {
    match mv
    case Call(op) =>
      && WellTyped(w, op)
      && if w.t.current == 0 then w.main.MRet? && !op.Exit?
         else Me(w) < |w.t.threads| == |w.ctl| && w.ctl[Me(w)].Ret? && !op.Join?
    case Continue =>
      if w.t.current == 0 then
        w.main.MJoin? && w.main.slot < |w.t.threads| && Terminal(w.t.threads[w.main.slot].state)
      else
        && Me(w) < |w.t.threads| == |w.ctl|
        && !w.ctl[Me(w)].Ret?
        && w.ctl[Me(w)].m < |w.objs| && w.objs[w.ctl[Me(w)].m].kind.Mutex?
    case Sched(choice) =>
      && w.t.current == 0
      && (w.main.MYield?
          || (w.main.MJoin? && w.main.slot < |w.t.threads| && !Terminal(w.t.threads[w.main.slot].state)))
      && (choice.Some? ==> choice.value < |w.t.threads| && w.t.threads[choice.value].state == Ready)
  }

  // ----- The step -----

  /** Control leaves the call made by `who` in slot `i`. A switch away lands in
      `run_next`, which restores the main context as the current one. */
  function Leave(w: World, who: nat, i: nat, o: Outcome): World
    requires who != 0 ==> i < |w.ctl|
  {
    match o
    case Return(res) => if who == 0 then w.(main := MRet(res)) else w.(ctl := w.ctl[i := Ret(res)])
    case Swap(k) =>
      if who == 0 then w
      else w.(ctl := w.ctl[i := k], t := w.t.(current := 0),
              main := if w.main.MYield? then MRet(Result(OK, 0)) else w.main)
  }

  function ApplyEffect(w: World, k: nat, e: Effect): Next
    requires k < |w.objs|
    requires w.t.current != 0 ==> Me(w) < |w.ctl|
  {
    Next(Leave(w.(t := e.t, objs := w.objs[k := e.obj]), w.t.current, Me(w), e.outcome), e.outcome, e.events)
  }

  /** The end of a join: hand out the return value and free the slot. */
  function Reap(w: World, tid: nat): Next {
    var i := FindSlot(w.t.threads, tid);
    if i == |w.t.threads| then Next(w.(main := MRet(Result(ENOTFOUND, 0))), Status0(ENOTFOUND), [])
    else
      var res := Result(OK, w.t.threads[i].retval);
      Next(w.(t := Release(w.t, i), main := MRet(res)), Return(res), [])
  }

  function JoinCall(w: World, tid: nat): Next {
    var i := FindSlot(w.t.threads, tid);
    if tid == 0 then Next(w.(main := MRet(Result(EINVAL, 0))), Status0(EINVAL), [])
    else if i == |w.t.threads| then Next(w.(main := MRet(Result(ENOTFOUND, 0))), Status0(ENOTFOUND), [])
    else if Terminal(w.t.threads[i].state) then Reap(w, tid)
    else Next(w.(main := MJoin(tid, i)), Swap(Ret(Result(OK, 0))), [])
  }

  function CreateCall(w: World, priority: nat): Next
    requires w.t.current != 0 ==> Me(w) < |w.ctl|
  {
    var c := CreateThread(w.t, priority);
    var i := EmptySlot(w.t.threads);
    var ctl := if i < |w.ctl| && i < |w.t.threads| then w.ctl[i := Ret(Result(OK, 0))] else w.ctl;
    Next(Leave(w.(t := c.t, ctl := ctl), w.t.current, Me(w), Return(c.res)), Return(c.res), c.events)
  }

  function YieldCall(w: World): Next
    requires w.t.current != 0 ==> Me(w) < |w.ctl| && Me(w) < |w.t.threads|
  {
    if w.t.current == 0 then Next(w.(main := MYield), Swap(Ret(Result(OK, 0))), [])
    else
      Next(Leave(w.(t := YieldAt(w.t, Me(w))), w.t.current, Me(w), Swap(Ret(Result(OK, 0)))),
           Swap(Ret(Result(OK, 0))), [Event(EVT_THREAD_YIELD, w.t.current, 0, 0)])
  }

  function StepCall(w: World, op: Op): Next
    requires Enabled(w, Call(op))
  {
    match op
    case Create(priority) => CreateCall(w, priority)
    case Yield => YieldCall(w)
    case Exit(value) =>
      Next(Leave(w.(t := ExitAt(w.t, Me(w), value)), w.t.current, Me(w), Swap(Ret(Result(OK, 0)))),
           Swap(Ret(Result(OK, 0))), ExitEvents(w.t, Me(w), value))
    case Join(tid) => JoinCall(w, tid)
    case Cancel(tid) =>
      var c := CancelThread(w.t, tid);
      Next(Leave(w.(t := c.t), w.t.current, Me(w), Return(c.res)), Return(c.res), c.events)
    case Init(k, count) =>
      ApplyEffect(w, k, Effect(w.t, Initial(w.objs[k].kind, count), Status0(OK), []))
    case On(k, call) => ApplyEffect(w, k, Perform(w.t, w.objs[k], k, call))
    case CondWait(c, m) =>
      var e := CondAwait(w.t, w.objs[c], w.objs[m], c, m);
      Next(Leave(w.(t := e.t, objs := w.objs[c := e.cv][m := e.mx]), w.t.current, Me(w), e.outcome),
           e.outcome, e.events)
  }

  function StepContinue(w: World): Next
    requires Enabled(w, Continue)
  {
    if w.t.current == 0 then Reap(w, w.main.tid)
    else
      match w.ctl[Me(w)]
      case InLock(m) => ApplyEffect(w, m, MutexRelock(w.t, w.objs[m], m, Me(w)))
      case InCond(m) => ApplyEffect(w, m, MutexLock(w.t, w.objs[m], m))
  }

  function StepSched(w: World, choice: Option<nat>): Next
    requires Enabled(w, Sched(choice))
  {
    match choice
    case Some(i) => Next(w.(t := DispatchAt(w.t, i)), Swap(Ret(Result(OK, 0))), DispatchEvents(w.t, i))
    case None =>
      var st := if w.main.MYield? then ENOTFOUND else EBUSY;
      Next(w.(main := MRet(Result(st, 0))), Status0(st), [])
  }

  function Step(w: World, mv: Move): Next
    requires Enabled(w, mv)
  {
    match mv
    case Call(op) => StepCall(w, op)
    case Continue => StepContinue(w)
    case Sched(choice) => StepSched(w, choice)
  }

  // ----- Runs -----

  predicate Runs(w: World, mvs: seq<Move>)
    decreases |mvs|
  {
    mvs == [] || (Enabled(w, mvs[0]) && Runs(Step(w, mvs[0]).w, mvs[1..]))
  }

  function Final(w: World, mvs: seq<Move>): World
    requires Runs(w, mvs)
    decreases |mvs|
  {
    if mvs == [] then w else Final(Step(w, mvs[0]).w, mvs[1..])
  }

  /** The runtime just after `gth_runtime_init`, with objects still zeroed. */
  predicate Start(w: World) {
    && |w.t.threads| == |w.ctl| == MAX_THREADS
    && (forall i :: 0 <= i < MAX_THREADS ==> w.t.threads[i] == EMPTY_THREAD)
    && (forall i :: 0 <= i < MAX_THREADS ==> w.ctl[i] == Ret(Result(OK, 0)))
    && w.t == Table(w.t.threads, 1, 0, 0, 0, 0)
    && w.main.MRet?
    && (forall k :: 0 <= k < |w.objs| ==> Zeroed(w.objs[k]))
  }

  predicate Zeroed(o: Object) {
    && !o.initialized && o.q == ZERO_QUEUE
    && match o.kind
       case Mutex(locked, owner) => !locked && owner == 0
       case Sem(count) => count == 0
       case Cond => true
  }
}
