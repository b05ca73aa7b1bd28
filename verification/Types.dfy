/** Values shared by the whole model: status codes, thread states, trace
    events and the records of the thread table and of the three kinds of
    synchronisation object. */
module Types {

  const MAX_THREADS: nat := 128
  const WAIT_QUEUE_SLOTS: nat := 52
  const NO_SLOT: nat := 0xFF
  const UINT32_MAX: nat := 0xFFFF_FFFF

  datatype Option<+T> = None | Some(value: T)

  datatype Status = OK | EINVAL | ENOMEM | ESTATE | EBUSY | ETIMEDOUT | ENOTFOUND | EINTERNAL

  datatype ThreadState = Empty | Ready | Running | Blocked | Done | Canceled

  predicate Terminal(st: ThreadState) {
    st == Done || st == Canceled
  }

  /** One slot of the thread table, without the machine context and stack. */
  datatype Thread = Thread(tid: nat, state: ThreadState, priority: nat, retval: nat)

  const EMPTY_THREAD := Thread(0, Empty, 0, 0)

  /** The part of the global runtime state that threads and scheduler share. */
  datatype Table = Table(threads: seq<Thread>, nextTid: nat, current: nat,
                         runnable: nat, blocked: nat, switches: nat)

  /** A wait queue, seen as the sequence of waiting slot numbers. */
  datatype Queue = Queue(cap: nat, items: seq<nat>)

  datatype Kind = Mutex(locked: bool, owner: nat) | Sem(count: nat) | Cond

  /** A mutex, semaphore or condition variable. */
  datatype Object = Object(initialized: bool, kind: Kind, q: Queue)

  /** A status and, for `create` and `join`, the tid or return value handed out. */
  datatype Result = Result(status: Status, value: nat)

  /** Where a suspended thread picks up: it returns `res` to its program, it
      retests the mutex in the retry loop of a lock, or it relocks the mutex of
      a condition wait. */
  datatype Resume = Ret(res: Result) | InLock(m: nat) | InCond(m: nat)

  /** How a library call leaves the calling context. */
  datatype Outcome = Return(res: Result) | Swap(resume: Resume)

  function Status0(st: Status): Outcome {
    Return(Result(st, 0))
  }

  /** A trace event before packing; objects stand for their own addresses. */
  datatype Event = Event(kind: nat, tid: nat, data1: nat, data2: nat)

  const EVT_THREAD_CREATE := 1
  const EVT_THREAD_EXIT := 2
  const EVT_THREAD_CANCEL := 3
  const EVT_CONTEXT_SWITCH := 10
  const EVT_THREAD_YIELD := 11
  const EVT_THREAD_BLOCK := 20
  const EVT_THREAD_UNBLOCK := 21
  const EVT_MUTEX_LOCK := 30
  const EVT_MUTEX_UNLOCK := 31
  const EVT_MUTEX_WAIT := 32
  const EVT_MUTEX_WAKE := 33
  const EVT_SEM_WAIT := 40
  const EVT_SEM_POST := 41
  const EVT_SEM_WAKE := 42
  const EVT_COND_WAIT := 50
  const EVT_COND_SIGNAL := 51
  const EVT_COND_BROADCAST := 52
  const EVT_RUNTIME_INIT := 90
  const EVT_RUNTIME_SHUTDOWN := 91

  /** The effect of one library call on the table and on the object it names. */
  datatype Effect = Effect(t: Table, obj: Object, outcome: Outcome, events: seq<Event>)
}
