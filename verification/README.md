# gthreads: a verified model of the runtime and of its trace pipeline

gthreads is a cooperative user-space threading library in C: 128 thread slots,
a scheduler (round robin or priority, optionally driven by a recorded trace or
perturbed by a fuzzer), mutexes, semaphores and condition variables that each
own a 52-entry ring of waiting slots, and a recorder that writes every
scheduling and synchronisation event to a file from which a run can be
replayed.

The project models that code twice and ties the two together.

- **In place.** `WaitQueue.dfy`, `Runtime.dfy`, `Recorder.dfy`, `Loader.dfy` and
  `Fuzz.dfy` hold the classes and loops of the source: the ring buffer, the
  thread table with its incremental counters, the code of each library call
  between two context switches, the record buffer and the trace file, the replay
  cursor, the fuzzer. Each method is proved against a function on values.
- **As a step machine.** `Threads.dfy` and `Sync.dfy` are those functions, and
  `Machine.dfy` puts them into one machine. A move is a library call of the
  current context, the continuation of a suspended call (the retry loop of a
  lock, the relock of a condition wait, the end of a join) or a decision of the
  scheduler. A context switch saves a resume point. A run is any sequence of
  enabled moves, whatever the programs do and whomever the scheduler picks, so a
  fact about the end of every run is a fact about every reachable state, at every
  library call.

What is proved of all runs from `gth_runtime_init`:

- `Accounting`, `Identity` (cancellation included): counters equal a recount;
  tids are distinct and never reused; creates minus joins are the slots in use; a
  thread is joined once and its join hands out what it returned; a thread cancelled
  while it is not current never runs again.
- `Cancellation`: a thread may cancel itself and go on running; the exact condition
  under which a call of such a thread leaves it CANCELED, since some calls do not.
- `Control`: a call returns to its caller, a switch to the main context, and a
  suspended thread keeps the point where it stopped until it runs again.
- `Waiting`, `Deadlock`: BLOCKED threads are exactly the queued ones, a free mutex
  with waiters has a woken thread on its way, and a deadlock reported by a join is
  genuine exactly when no thread is READY. Both policies guarantee that, fuzzed or
  not; a replayed trace does not. The condition under which a cancellation or a second `init` keeps these
  facts is stated exactly, on the state before the call, and `Counterexamples` has a
  run for each way to break them: a stale queue entry that ends in a false deadlock,
  a lost wakeup, a forgotten waiter, a replayed trace that has ended.
- `Exclusion`: mutual exclusion told from what the callers see, with the exact
  condition, and a run with two holders of a mutex taken by the main context.
- `Fifo`: queues are first come, first served; semaphore grants are conserved; a
  condition wait releases its mutex atomically and rolls back exactly.
- `Scheduler`, `Policies`, `Programs`: bounded bypass of round robin, the best
  thread by priority, both policies, fuzzed or not, pick a READY thread if there is
  one, and the scheduling loop of a join ends for finite programs (`Joins`: what its
  EBUSY means).
- `TraceFormat`, `Recorder`, `Loader`, `Replay`: the record layout round-trips, the
  checksum catches every one-byte change, file and buffer together are the log
  across all flushes, and replaying a recorded run goes through the same states;
  `EndToEnd` does all of it in one program.

Three words recur below. A run is *harmless* when no cancellation takes effect on a
BLOCKED thread or on the only thread that a free mutex with waiters can count on,
and no object with waiters is initialised again. A *foreign release* takes a mutex
from its holder: the releasing context is not the recorded owner, which happens with
owner 0 only, or a held mutex is initialised again. A policy is *sound* when it picks
a READY thread whenever there is one.

Where code and comments disagree the model follows the code: the comment beside
the FNV offset basis in `src/trace/trace_format.h` gives another hexadecimal
number than the constant that is used.

## Model

| member | source | states |
|---|---|---|
| `Replay.ReplayReproduces` | src/trace/replay.c:421-471 | for every deterministic program, every sound policy and every recorded run, the replay of its trace has the same thread table, objects, resume points and program memory after every step, and it is marked as diverged exactly when a failed pick preceded a later switch |
| `Loader.TraceFileReplays` | src/trace/replay.c:168-221 | the same through the file: the bytes of the session load, give back the records, and drive the replay through the recorded states |
| `EndToEnd.RecordAndReplay` | src/trace/replay.c:421-471 | one program records a run, writes the file, loads it and replays it through the replay state: a file within the limit loads, and the replay ends in the configuration in which the recorded run ended, diverged exactly as above |
| `Replay.DispatchMatches` | src/sched/scheduler.c:177-218 | at a recorded dispatch the replay picks the same slot and moves just past that switch record |
| `Replay.FailureMatches` | src/trace/replay.c:456-466 | where no thread was READY the replay finds nobody either, stays aligned, and turns diverged exactly if a switch record is still ahead |
| `Replay.StepNoSwitch` | src/trace/trace.c:385-388 | no move but a dispatch records a context switch |
| `Replay.PickFollowsTrace` | src/trace/replay.c:421-471 | a pick never moves the index back or past the end; a successful one names the target of the first switch record ahead and consumes it, a failed lookup stays on that record |
| `Replay.PicksFollowSwitches` | src/trace/replay.c:421-471 | over any trace and any thread tables the i-th successful pick is the thread of the i-th switch record, none skipped and none taken twice |
| `Replay.ReplayReady` | src/sched/scheduler.c:94-97 | replay mode picks READY threads only, so the join loop ends in it too |
| `Replay.ReplayPicksNobody` | src/trace/replay.c:421-471 | it picks nobody if and only if no switch record is ahead or the thread that the next one names is not READY |
| `Loader.ReplayState.PeekEvent` | src/trace/replay.c:292-329 | the record at the index, unchanged index |
| `Loader.ReplayState.NextEvent` | src/trace/replay.c:248-286 | the record at the index, index and last timestamp advanced, nothing at the end |
| `Loader.ReplayState.NextThread` | src/trace/replay.c:421-471 | the skip loop ends and the method does what the cursor function on the record list does |
| `Loader.ValidateHeader` | src/trace/replay.c:28-47 | true exactly for a header with the magic number and version 2 |
| `Loader.FindRunnable` | src/trace/replay.c:390-413 | the live thread with the tid if it is READY or RUNNING, otherwise none |
| `Loader.CountRecords` | src/trace/replay.c:129-163 | the number of whole records if header and every checksum are valid, otherwise 0 |
| `Loader.Load` | src/trace/replay.c:168-221 | the status of every exit in order: empty path, a replay under way, an unreadable or oversized file, an invalid trace, no memory; and the fresh cursor over all records |
| `Loader.Session` | src/trace/trace.c:153-255 | start, any events, stop: the file is the header followed by the records of initialisation, of the events in order and of shutdown, across any number of flushes |
| `Loader.SessionReadsBack` | src/trace/replay.c:248-286 | reading the session file gives back type, tid and payload of an event, in its place, if and only if the event fits the fields of a record |
| `Loader.SessionLoads` | src/trace/replay.c:129-221 | a session file within the size limit loads with exactly the records that were written |
| `Recorder.TraceBuffer.Append` | src/trace/trace_buffer.c:122-141 | the bytes go behind the buffered ones, or nothing changes when the buffer is full |
| `Recorder.TraceBuffer.Flush` | src/trace/trace_buffer.c:147-174 | file and buffer together hold the same bytes before and after; a failed write keeps both |
| `Recorder.Trace.Record` | src/trace/trace.c:298-379 | the log grows by this one record unless tracing is off, replaying, or the buffer is full and the flush fails; file plus buffer stay the whole log and `event_count` its length |
| `Recorder.Trace.Stop` | src/trace/trace.c:222-255 | the shutdown record goes into the buffer, behind a flush, or is dropped; then the buffered bytes follow into the file or, if the last flush fails, are exactly what is lost; file and lost bytes are the header and the whole log; ESTATE when tracing is off |
| `TraceFormat.RecordRoundTrip` | src/trace/trace_format.h:127-168 | a packed record reads back field by field and passes its checksum |
| `TraceFormat.ChecksumDetects` | src/trace/trace_format.h:146-168 | changing any one of the 32 bytes of a valid record makes it invalid |
| `TraceFormat.FnvStepInjective` | src/trace/trace_format.h:152-157 | a hash step loses nothing: different running hashes, or different bytes on the same hash, stay different |
| `TraceFormat.Checksum` | src/trace/trace_format.h:146-160 | the loop computes FNV-1a of the first 28 bytes |
| `TraceFormat.ValidateRecord` | src/trace/trace_format.h:165-168 | true exactly when the stored checksum is that of the other bytes |
| `TraceFormat.PackingExact` | src/trace/trace.c:321-363 | unpacking what was packed gives the event back if and only if it fits: two 32-bit halves for switch, semaphore, signal and broadcast events, one 64-bit word for the others |
| `TraceFormat.SwitchTarget` | src/trace/trace.c:298-388 | the data word packed for a context switch carries the target tid modulo 2^32 in its low half |
| `TraceFormat.HeaderValid` | src/trace/trace_format.h:101-110 | a written header passes the loader's header check whatever follows it |
| `TraceFormat.FileRoundTrip` | src/trace/replay.c:129-163 | header plus encoded records: as many records as were written, all valid, all equal |
| `Deadlock.GenuineDeadlock` | src/sched/scheduler.c:240-251 | after every harmless run, when the mode picks nobody in the loop of a join the answer is EBUSY, and every unfinished thread is BLOCKED in the queue of a locked mutex, a semaphore at 0 or a condition variable if and only if no thread is READY |
| `Joins.JoinOrDeadlock` | src/sched/scheduler.c:220-254 | the join loop of a finite program, entered after any run from initialisation, ends in every mode; if it ends with EBUSY and the whole run was harmless, the program is deadlocked in that sense if and only if no thread is READY, which holds under every sound policy |
| `Deadlock.QueuesExact` | src/sync/wait_queue.h:36-61 | after every harmless run a thread is BLOCKED exactly when its slot is queued, at one place of one queue, and the queue lengths add up to the number of BLOCKED threads and to `blocked_threads` |
| `Deadlock.WakeupsKept` | src/sync/mutex.c:47-167 | whenever a mutex is free and has waiters, a thread already taken from its queue, and in no queue, is READY or running and has yet to retest it |
| `Waiting.StepKept` | src/sync/mutex.c:76-97 | every harmless move keeps the queue invariant: exact membership, resume points that fit the queue, no lost wakeup, no waiter at a positive semaphore; barging by lock and trylock and the queue-full exit included |
| `Waiting.RunKept` | src/sync/mutex.c:47-167 | the same for every harmless run |
| `Waiting.CancelExactly` | src/thread/thread.c:207-240 | a cancellation keeps the queue invariant if and only if it names no live unfinished thread, or one that is neither BLOCKED nor the only one that a free mutex with waiters can count on |
| `Waiting.InitExactly` | src/sync/mutex.c:29-45 | an `init` keeps the queue invariant if and only if nobody is queued on the object |
| `Waiting.StartOk` | src/runtime/runtime.c:129-155 | the freshly initialised runtime satisfies all invariants |
| `Counterexamples.PostLost` | src/thread/thread.c:232-237 | a run from initialisation in which a post is spent on the stale entry of a cancelled waiter: the post succeeds, nobody is woken, the count stays 0 |
| `Counterexamples.FalseDeadlockReached` | src/thread/thread.c:232-237 | a run from initialisation with one cancellation of a BLOCKED thread after which a join answers EBUSY although the awaited thread waits for a free mutex: abandoned, nobody pending, not deadlocked |
| `Counterexamples.WakeupLost` | src/thread/thread.c:237-239 | a run to a sound state in which the cancellation of a woken READY thread loses the only wakeup of a free mutex |
| `Counterexamples.ReplayedFalseDeadlock` | src/sched/scheduler.c:94-97 | a run of two calls after which, in replay mode with the trace at its end, a join answers EBUSY although its thread is READY |
| `Counterexamples.WaiterForgotten` | src/sync/sem.c:36-40 | a run in which an `init` of a semaphore with a waiter leaves the waiter BLOCKED in no queue |
| `Counterexamples.CancellationUndone` | src/sync/cond.c:78-87 | a run in which a thread that cancelled itself is RUNNING again after a condition wait whose unlock failed |
| `Counterexamples.CancellationForgotten` | src/thread/thread.c:151-157 | a run in which a thread that cancelled itself yields, runs again and ends DONE with its value |
| `Counterexamples.TwoHolders` | src/sync/mutex.c:147-150 | a run from initialisation in which the main context and a green thread both hold the mutex |
| `Exclusion.MutualExclusion` | src/sync/mutex.c:47-167 | over every run without a foreign release at most one context is between a successful lock, trylock or condition-wait return and its release; `locked` says whether, `owner` says who |
| `Exclusion.StepTells` | src/sync/mutex.c:127-167 | a move keeps `locked` and `owner` in agreement with the holders if and only if it is not a foreign release, which is told from the state before the move |
| `Exclusion.ForeignReleaseIs` | src/sync/mutex.c:134-153 | that guard covers exactly the moves that release a mutex whose owner is not the caller or initialise a held one |
| `Exclusion.GreenExclusion` | src/sync/mutex.c:47-167 | mutual exclusion for every mutex that the main context never locks and nobody initialises while it is held |
| `Exclusion.GreenRunSafe` | src/sync/mutex.c:147-150 | on such a mutex no foreign release ever happens |
| `Fifo.StepFifo` | src/sync/wait_queue.h:36-61 | a harmless move takes the due number of waiters from the front of every queue and adds at most the caller at the back; a BLOCKED slot becomes READY if and only if it was due at some queue |
| `Fifo.RunFifo` | src/sync/wait_queue.h:36-61 | over any harmless run the initial waiters followed by the arrivals are the woken ones, in that order, followed by those still queued |
| `Fifo.SemConservation` | src/sync/sem.c:44-125 | initial count plus successful posts equals final count plus waits granted at once plus waiters woken |
| `Fifo.SemServesInOrder` | src/sync/sem.c:105-121 | up to as many posts as waiters, the posts have served exactly the first waiters; the others are still queued in order, ahead of every later arrival |
| `Fifo.SemQueueAfter` | src/sync/sem.c:44-125 | every such run ends in a sound state whose queue is the old one without as many waiters as there were posts, followed by the arrivals |
| `Fifo.WaiterServed` | src/sync/sem.c:105-121 | in that state the waiter once at position p is still BLOCKED, and the next post wakes it if and only if there were exactly p posts before |
| `Fifo.UnblockAllWakes` | src/sync/cond.c:139-149 | a broadcast makes every waiter READY, records the wakeups in queue order and touches no other slot |
| `Fifo.WaitReleases` | src/sync/cond.c:69-89 | a condition wait that goes through leaves the thread BLOCKED at the back of the queue and the mutex free, in one step, with a woken thread for the mutex if somebody waits for it |
| `Fifo.RollbackExact` | src/sync/cond.c:77-87 | a condition wait whose unlock fails returns ESTATE and restores queues, thread states and counters if and only if the thread was RUNNING; the other case is a thread that cancelled itself |
| `Accounting.StepOk` | src/thread/thread.c:7-76 | every move keeps: counters equal the recount, live tids positive, distinct and below `next_tid`, only the current thread RUNNING, queues within capacity, resume points at mutexes, the join target in its slot |
| `Accounting.CountersAgree` | src/runtime/runtime.c:80-116 | after every run `runnable_threads` and `blocked_threads` equal the recount, so that no "greater than 0" guard ever holds back a decrement that is due |
| `Identity.SlotsConserved` | src/thread/thread.c:56-130 | after every run successful creates minus successful joins are the slots in use, at most 128, with distinct tids |
| `Identity.JoinedOnce` | src/thread/thread.c:160-205 | once a tid was joined with OK no later move of any run joins it with OK again |
| `Identity.CanceledNeverRuns` | src/thread/thread.c:207-240 | after the cancellation of a thread that is not current, no later dispatch picks it, whatever stale queue entries are woken, and its join hands out NULL |
| `Identity.JoinDelivers` | src/context/context.c:34-66 | what a thread function returns is what a later join hands out, after any run in between, NULL if the thread is CANCELED when it returns; and the thread is never dispatched again |
| `Cancellation.CancellationStands` | src/thread/thread.c:132-158 | a move of a thread that cancelled itself leaves it CANCELED if and only if it is not a yield, a lock or relock that blocks, a wait at 0 with room in the queue, or a condition wait on an initialised condition variable with room |
| `Cancellation.CanceledRun` | src/thread/thread.c:207-240 | a CANCELED thread stays CANCELED over every run in which it makes no such move and nobody joins it |
| `Identity.ReadyStays` | src/thread/thread.c:272-303 | a READY thread is untouched until it is dispatched or cancelled |
| `Control.ResumesWhereItStopped` | src/sched/scheduler.c:212-215 | from the move that suspends a thread until its next own move, over any run that does not join it, the thread keeps its slot and the resume point of that move |
| `Control.GreenGoes` | src/sched/scheduler.c:195-217 | a green thread goes on with the result of its call, or is suspended exactly at the resume point of that call while the main context is current again, its `yield` over with OK; no other resume point changes |
| `Control.MainGoes` | src/thread/thread.c:132-205 | the main context goes on with the result of its call, enters the scheduling loop, or stays in it while the picked thread becomes current |
| `Scheduler.RoundRobinFair` | src/sched/scheduler.c:27-41 | while a READY slot waits under round robin at most 127 picks go to other slots, no slot twice, whatever is created, blocked, woken or joined in between |
| `Scheduler.RoundRobinNearest` | src/sched/scheduler.c:27-41 | the pick is the READY slot at the least cyclic distance after the last one, and none only if no slot is READY |
| `Scheduler.RoundRobinCloser` | src/sched/scheduler.c:27-41 | a pick of another slot brings the waiting slot strictly closer |
| `Scheduler.BestUpToBest` | src/sched/scheduler.c:44-69 | the priority pick is READY and goes before every READY thread: higher priority, then lower tid |
| `Policies.PolicySound` | src/sched/scheduler.c:18-70 | both policies pick a READY slot whenever there is one and keep the last slot in range |
| `Policies.PolicyFair` | src/sched/scheduler.c:27-41 | in every run whose decisions are those of the round-robin policy, the join loop among them, fewer than 128 picks pass over a READY thread and none of them twice to the same slot |
| `Policies.FuzzSound` | src/sched/scheduler.c:81-114 | the same in fuzz mode for any outcome of the dice |
| `Policies.PerturbedIsPick` | src/trace/fuzz.c:304-333 | whatever the fuzzer makes of the normal choice is the choice of the fuzzed policy under some decisions |
| `Programs.RunUntil` | src/sched/scheduler.c:220-254 | for finite programs and any mode that picks READY threads or nobody, replay included, the loop ends, with OK exactly if the target is terminal, otherwise with EBUSY and nobody picked, and nobody READY under a sound policy; all its decisions are the mode's, and the lookup before it finds the slot |
| `Programs.RunNext` | src/sched/scheduler.c:177-218 | a dispatch by a join or by a yield of the main context runs until the thread yields, blocks or exits; it ends, a yield is then over with OK, and the remaining work is lower or it is equal and the READY threads fewer |
| `Programs.GreenProgress` | src/sync/mutex.c:85-93 | one move of a green thread uses up work, or it uses none and makes nobody READY: an exit, or a round of the retry loop or a relock, after which the thread has left the processor or is no longer inside the suspended call |
| `Fuzz.AlternativeBijective` | src/trace/fuzz.c:209-247 | the drawn indexes below the number of READY threads correspond one to one to the READY threads; the last one keeps the normal choice |
| `Fuzz.SmearLeast` | src/trace/fuzz.c:142-149 | the mask is of the form 2^k - 1, not below its argument, and the least such number |
| `Fuzz.MaskKeeps` | src/trace/fuzz.c:143-155 | every value below the bound survives the mask, so no index is out of reach |
| `Fuzz.FuzzState.RandomRange` | src/trace/fuzz.c:135-158 | the result is below the bound and is the first masked draw that is; bound 0 gives 0 and draws nothing |
| `Fuzz.FuzzState.ShouldPerturb` | src/trace/fuzz.c:163-186 | never during the first five decisions, then exactly when the next draw modulo 100 is below the rate |
| `Fuzz.FuzzState.PickThread` | src/trace/fuzz.c:304-333 | a READY thread whenever the policy found one; after the warm-up and on a low roll the one that the draws after the roll select, otherwise the normal choice; every draw is accounted for |
| `Fuzz.CountReady` | src/trace/fuzz.c:191-204 | the loop counts the READY slots |
| `Fuzz.FuzzState.PickAlternative` | src/trace/fuzz.c:209-247 | the first draw below the number of READY threads is the index of the chosen one; no draw when there is no alternative |
| `Fuzz.Select` | src/trace/fuzz.c:221-246 | the loop selects the READY slot that the index stands for |
| `Fuzz.DrawExists` | src/trace/fuzz.c:209-247 | every READY thread is selected by a word below the number of READY threads |
| `Fuzz.DrawUnique` | src/trace/fuzz.c:209-247 | and by only one |
| `WaitQueues.WaitQueue.Enqueue` | src/sync/wait_queue.h:36-46 | append at the back, nothing when full; ring contents and tail kept, across wraparound |
| `WaitQueues.WaitQueue.TailIsMod` | src/sync/wait_queue.h:36-61 | `tail == (head + count) % capacity` in every valid ring |
| `WaitQueues.WaitQueue.Dequeue` | src/sync/wait_queue.h:48-61 | drop and return the first waiter, the 0xFF sentinel exactly when empty |
| `WaitQueues.WaitQueue.Remove` | src/sync/wait_queue.h:67-92 | delete the first occurrence, in order, and say whether there was one |
| `WaitQueues.WaitQueue.Init` | src/sync/wait_queue.h:18-24 | an empty queue of the given capacity |
| `WaitQueues.WaitQueue.IsFull` | src/sync/wait_queue.h:31-34 | full exactly when the sequence of waiters fills the capacity |
| `Runtime.RuntimeState.constructor` | src/runtime/runtime.c:129-155 | the table of the start state: 128 empty slots, next tid 1, counters 0, and 127 as the last round-robin slot |
| `Runtime.RuntimeState.FindThread` | src/runtime/runtime.c:14-30 | the first live slot with the tid, 128 if none |
| `Runtime.RuntimeState.AllocSlot` | src/runtime/runtime.c:32-48 | the first empty slot, 128 if none |
| `Runtime.RuntimeState.Snapshot` | src/runtime/runtime.c:80-116 | the scan counts total, READY, BLOCKED and terminal slots |
| `Runtime.RuntimeState.CurrentIndex` | src/thread/thread.c:315-332 | the slot of the current thread, 128 for the main context |
| `Runtime.RuntimeState.SetThreadState` | src/thread/thread.c:7-44 | state and guarded counters change as in the step machine |
| `Runtime.RuntimeState.ReleaseSlot` | src/thread/thread.c:56-76 | the slot is zeroed and its counter adjusted |
| `Runtime.RuntimeState.Create` | src/thread/thread.c:78-130 | the first empty slot becomes READY under the next tid, or ENOMEM and no change |
| `Runtime.RuntimeState.YieldCurrent` | src/thread/thread.c:132-158 | the current slot becomes READY before control leaves |
| `Runtime.RuntimeState.Join` | src/thread/thread.c:160-205 | error exits, the immediate join of a terminal thread, or the scheduling loop is needed |
| `Runtime.RuntimeState.JoinEnd` | src/thread/thread.c:191-204 | the thread is looked up again, its value handed out and its slot freed |
| `Runtime.RuntimeState.Cancel` | src/thread/thread.c:207-240 | status, new state, counters and events of a cancellation, its error exits included |
| `Runtime.RuntimeState.BlockCurrent` | src/thread/thread.c:242-270 | the current slot becomes BLOCKED and is counted; ESTATE and no change for the main context |
| `Runtime.RuntimeState.UnblockSlot` | src/thread/thread.c:272-303 | only a BLOCKED slot becomes READY; status of the other cases |
| `Runtime.RuntimeState.Exit` | src/context/context.c:34-66 | DONE with the returned value, or still CANCELED with NULL; the main context is current again |
| `Runtime.RuntimeState.Dispatch` | src/sched/scheduler.c:195-212 | the picked slot is RUNNING and current, the switch is counted and recorded |
| `Runtime.RuntimeState.PickRoundRobin` | src/sched/scheduler.c:27-41 | the scan finds the round-robin pick and moves `last_rr_slot` only on success |
| `Runtime.RuntimeState.PickPriority` | src/sched/scheduler.c:44-69 | the scan finds the priority pick |
| `Runtime.RuntimeState.MutexInit` | src/sync/mutex.c:29-45 | free, unowned, and an empty queue of 52 places |
| `Runtime.RuntimeState.PickMode` | src/sched/scheduler.c:81-114 | the trace decides in replay mode, otherwise the policy, which the fuzzer may perturb; a picked slot is READY or RUNNING |
| `Runtime.RuntimeState.RunNext` | src/sched/scheduler.c:177-212 | in every mode one scheduling decision for a yield of the main context is the scheduler move of the step machine; ENOTFOUND when nobody is picked |
| `Runtime.RuntimeState.UntilRound` | src/sched/scheduler.c:240-251 | one round of the join loop is that move too, in every mode, with EBUSY when nobody is picked |
| `Runtime.RuntimeState.Lock` | src/sync/mutex.c:47-83 | table, mutex with ring queue, outcome and events of a lock up to its return or first block |
| `Runtime.RuntimeState.Relock` | src/sync/mutex.c:85-99 | one round of the retry loop: acquire, EBUSY on a full queue, or queue and block again |
| `Runtime.RuntimeState.Trylock` | src/sync/mutex.c:102-125 | take a free mutex, EBUSY on a held one, without event |
| `Runtime.RuntimeState.Unlock` | src/sync/mutex.c:127-167 | free the mutex, wake the longest waiter, events in order; ESTATE for a caller that may not |
| `Runtime.RuntimeState.DestroyMutex` | src/sync/mutex.c:169-194 | zeroed memory, or EBUSY while held or waited for |
| `Runtime.RuntimeState.SemInit` | src/sync/sem.c:27-42 | the given count and an empty queue of 52 places |
| `Runtime.RuntimeState.DestroySem` | src/sync/sem.c:127-147 | zeroed memory, or EBUSY while waited for |
| `Runtime.RuntimeState.Wait` | src/sync/sem.c:44-88 | take one, or queue and block at 0, or the error exits |
| `Runtime.RuntimeState.Post` | src/sync/sem.c:90-125 | hand over to the longest waiter, else add one, EINVAL at the maximum |
| `Runtime.RuntimeState.CondInit` | src/sync/cond.c:24-39 | initialised, with an empty queue of 52 places |
| `Runtime.RuntimeState.DestroyCond` | src/sync/cond.c:154-174 | zeroed memory, or EBUSY while waited for |
| `Runtime.RuntimeState.CondWait` | src/sync/cond.c:41-89 | queue and block before the mutex is freed, with the rollback when the unlock fails |
| `Runtime.RuntimeState.Signal` | src/sync/cond.c:95-122 | wake the longest waiter and record its tid, nothing on an empty queue |
| `Runtime.RuntimeState.Broadcast` | src/sync/cond.c:124-152 | the draining loop ends, wakes all waiters in order and records their number |

## Left out

- Join and scheduling from inside a green thread: a nested call overwrites the single scheduler context, so the model lets only the main context join and drive the scheduler.
- Machine contexts, stacks, FPU state and the assembly switch (`src/context`): a switch is a saved resume point, and stack allocation succeeds.
- Clocks, file opening and partial writes: timestamps and the success of a write are parameters, a file is a byte sequence, and a write is all or nothing.
- The addresses of synchronisation objects in events: an object number stands for its address.
- Tid wrap-around: tids are unbounded, and the replay theorems ask for tids below 2^32, as the record layout does.
- NULL arguments, the not-initialised runtime, configuration checks, statistics getters and the mode switch: each is settled by one branch.
- `gth_replay_validate_event`: nothing in the library calls it.
- Programs.RunUntil: the programs are functions of a shared memory and of the result of the last call; that they are finite is given by a measure that every call of a green thread but its exit lowers. The ESTATE and ENOTFOUND exits before the loop are not in it: a join by the main context has looked the thread up, and the contract says that the second lookup succeeds.
- Fuzz.FuzzState.RandomRange: that the generator ever produces an acceptable draw is a parameter, since rejection sampling need not end, and so it is for the methods that call it; the xorshift generator is an arbitrary stream of 64-bit words.
- Runtime.RuntimeState.RunNext: ends at the context switch, as every method of that class; what follows the switch is `Programs.RunNext`.
- Runtime.RuntimeState.UntilRound: ends at the context switch too; the whole loop is `Programs.RunUntil`.
- Loader.Session: all writes succeed; failed writes are covered by `Recorder.Trace.Record` and `Recorder.Trace.Stop`.
