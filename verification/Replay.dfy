/** Replaying a trace: the cursor over the records, the thread it picks, and
    the theorem that a replay goes through the same states as the recorded
    run. */
module Replay {
  import opened Types
  import opened Threads
  import opened Sync
  import opened Machine
  import opened Accounting
  import opened Identity
  import opened Deadlock
  import opened Scheduler
  import opened Programs
  import opened TraceFormat

  // ----- The cursor -----

  predicate IsSwitch(rs: seq<Record>, i: nat) {
    i < |rs| && rs[i].kind == EVT_CONTEXT_SWITCH
  }

  /** The first context-switch record at or after `i`, or the end. */
  function SkipTo(rs: seq<Record>, i: nat): (k: nat)
    requires i <= |rs|
    ensures i <= k <= |rs|
    ensures k < |rs| ==> IsSwitch(rs, k)
    ensures forall j :: i <= j < k ==> !IsSwitch(rs, j)
    decreases |rs| - i
  {
    if i == |rs| || IsSwitch(rs, i) then i else SkipTo(rs, i + 1)
  }

  /** `gth_replay_find_thread`. */
  function ReplayFind(ts: seq<Thread>, tid: nat): Option<nat> {
    var i := FindSlot(ts, tid);
    if tid == 0 || i == |ts| then None
    else if ts[i].state == Ready || ts[i].state == Running then Some(i)
    else None
  }

  datatype Cursor = Cursor(idx: nat, diverged: bool)

  /** `gth_replay_next_thread`: skip to a switch, find its target, and consume
      the record only when the target can run. */
  function ReplayPick(rs: seq<Record>, cur: Cursor, ts: seq<Thread>): (Option<nat>, Cursor)
    requires cur.idx <= |rs|
  {
    var k := SkipTo(rs, cur.idx);
    if k == |rs| then (None, cur.(idx := k))
    else
      var found := ReplayFind(ts, TargetOf(rs[k]));
      if found.None? then (None, Cursor(k, true)) else (found, cur.(idx := k + 1))
  }

  /** The index only moves forward and stays within the trace; a pick names the
      thread of the first switch record ahead; a failed lookup stays on it. */
  lemma PickFollowsTrace(rs: seq<Record>, cur: Cursor, ts: seq<Thread>)
    requires cur.idx <= |rs|
    ensures var (choice, next) := ReplayPick(rs, cur, ts);
            && cur.idx <= next.idx <= |rs|
            && (cur.diverged ==> next.diverged)
            && (choice.Some? ==>
                  && next.idx > cur.idx && IsSwitch(rs, next.idx - 1) && next.diverged == cur.diverged
                  && (forall j :: cur.idx <= j < next.idx - 1 ==> !IsSwitch(rs, j))
                  && choice.value < |ts| && Named(ts[choice.value], TargetOf(rs[next.idx - 1])))
            && (choice.None? ==>
                  && (forall j :: cur.idx <= j < next.idx ==> !IsSwitch(rs, j))
                  && (next.idx == |rs| || (next.diverged && IsSwitch(rs, next.idx)))
                  && SkipTo(rs, next.idx) == next.idx)
  {
  }

  /** Replay mode as a policy, whose private state is the cursor. */
  function ReplayPicker(rs: seq<Record>): Picker<Cursor> {
    (ts: seq<Thread>, cur: Cursor) => if cur.idx <= |rs| then ReplayPick(rs, cur, ts) else (None, cur)
  }

  /** It picks READY threads only, so that the loop of a join ends in replay mode
      too; but it may pick nobody while threads are READY. */
  lemma ReplayReady(rs: seq<Record>)
    ensures ReadyPicker(ReplayPicker(rs), (cur: Cursor) => cur.idx <= |rs|)
  {
    forall ts: seq<Thread>, cur: Cursor | cur.idx <= |rs| && NobodyRuns(ts)
      ensures var (choice, next) := ReplayPicker(rs)(ts, cur);
              (choice.Some? ==> IsReady(ts, choice.value)) && next.idx <= |rs|
    {
      PickFollowsTrace(rs, cur, ts);
    }
  }

  /** Exactly when it picks nobody: no switch is ahead, or the thread that the next
      one names is not READY. */
  lemma ReplayPicksNobody(rs: seq<Record>, cur: Cursor, ts: seq<Thread>)
    requires cur.idx <= |rs| && NobodyRuns(ts)
    ensures var k := SkipTo(rs, cur.idx);
            ReplayPick(rs, cur, ts).0 == None <==>
              || k == |rs|
              || var i := FindSlot(ts, TargetOf(rs[k]));
                 TargetOf(rs[k]) == 0 || i == |ts| || ts[i].state != Ready
  {
  }

  /** The threads named by the switch records among the first `n`. */
  function Targets(rs: seq<Record>, n: nat): seq<nat>
    requires n <= |rs|
  {
    if n == 0 then []
    else Targets(rs, n - 1) + if IsSwitch(rs, n - 1) then [TargetOf(rs[n - 1])] else []
  }

  lemma {:induction false} TargetsSkip(rs: seq<Record>, a: nat, b: nat)
    requires a <= b <= |rs| && forall j :: a <= j < b ==> !IsSwitch(rs, j)
    ensures Targets(rs, b) == Targets(rs, a)
    decreases b - a
  {
    if a == b {
    } else {
      TargetsSkip(rs, a, b - 1);
    }
  }

  /** The cursor after one pick from each of the tables, and the tids picked. */
  function PickAll(rs: seq<Record>, cur: Cursor, tables: seq<seq<Thread>>): (Cursor, seq<nat>)
    requires cur.idx <= |rs|
    ensures PickAll(rs, cur, tables).0.idx <= |rs|
    decreases |tables|
  {
    if tables == [] then (cur, [])
    else
      PickFollowsTrace(rs, cur, tables[0]);
      var (choice, next) := ReplayPick(rs, cur, tables[0]);
      var (last, tids) := PickAll(rs, next, tables[1..]);
      (last, (if choice.Some? then [tables[0][choice.value].tid] else []) + tids)
  }

  lemma PickTakesTarget(rs: seq<Record>, cur: Cursor, ts: seq<Thread>)
    requires cur.idx <= |rs|
    ensures var (choice, next) := ReplayPick(rs, cur, ts);
            && cur.idx <= next.idx <= |rs| && (choice.Some? ==> choice.value < |ts|)
            && Targets(rs, next.idx)
               == Targets(rs, cur.idx) + if choice.Some? then [ts[choice.value].tid] else []
  {
    PickShape(rs, cur, ts);
    var (choice, next) := ReplayPick(rs, cur, ts);
    TakesTarget(rs, cur.idx, ts, choice, next.idx);
  }

  lemma TakesTarget(rs: seq<Record>, idx: nat, ts: seq<Thread>, choice: Option<nat>, next: nat)
    requires idx <= |rs|
    requires var k := SkipTo(rs, idx);
             match choice
             case None => next == k
             case Some(i) => k < |rs| && next == k + 1 && i < |ts| && ts[i].tid == TargetOf(rs[k])
    ensures idx <= next <= |rs|
    ensures Targets(rs, next) == Targets(rs, idx) + if choice.Some? then [ts[choice.value].tid] else []
  {
    var k := SkipTo(rs, idx);
    TargetsSkip(rs, idx, k);
    if choice.Some? { TargetsNext(rs, k); }
  }

  lemma PickShape(rs: seq<Record>, cur: Cursor, ts: seq<Thread>)
    requires cur.idx <= |rs|
    ensures var (choice, next) := ReplayPick(rs, cur, ts);
            var k := SkipTo(rs, cur.idx);
            match choice
            case None => next.idx == k
            case Some(i) => k < |rs| && next.idx == k + 1 && i < |ts| && ts[i].tid == TargetOf(rs[k])
  {
  }

  lemma TargetsNext(rs: seq<Record>, k: nat)
    requires IsSwitch(rs, k)
    ensures Targets(rs, k + 1) == Targets(rs, k) + [TargetOf(rs[k])]
  {
  }

  /** Over any trace and whatever the thread tables are: the `i`-th successful
      pick is the thread of the `i`-th switch record, none skipped, none twice. */
  lemma {:induction false} PicksFollowSwitches(rs: seq<Record>, cur: Cursor, tables: seq<seq<Thread>>)
    requires cur.idx <= |rs|
    ensures var (last, tids) := PickAll(rs, cur, tables);
            cur.idx <= last.idx && Targets(rs, last.idx) == Targets(rs, cur.idx) + tids
    decreases |tables|
  {
    if tables == [] {
    } else {
      PickTakesTarget(rs, cur, tables[0]);
      var (choice, next) := ReplayPick(rs, cur, tables[0]);
      PicksFollowSwitches(rs, next, tables[1..]);
    }
  }

  // ----- What a step records -----

  predicate NoSwitch(evs: seq<Event>) {
    forall i :: 0 <= i < |evs| ==> evs[i].kind != EVT_CONTEXT_SWITCH && evs[i].kind < 256
  }

  lemma {:induction false} UnblockAllNoSwitch(t: Table, ws: seq<nat>)
    ensures NoSwitch(UnblockAllEvents(t, ws))
    decreases |ws|
  {
    if ws == [] {
    } else {
      UnblockAllNoSwitch(Unblock(t, ws[0]), ws[1..]);
    }
  }

  lemma PerformNoSwitch(t: Table, o: Object, k: nat, call: ObjectCall)
    requires Machine.Fits(o.kind, call)
    ensures NoSwitch(Perform(t, o, k, call).events)
  {
    if call == Broadcast { UnblockAllNoSwitch(t, o.q.items); }
  }

  lemma CallNoSwitch(w: World, op: Op)
    requires Enabled(w, Call(op))
    ensures NoSwitch(StepCall(w, op).events)
  {
    match op
    case On(k, call) => PerformNoSwitch(w.t, w.objs[k], k, call);
    case CondWait(c, m) => assert NoSwitch(CondAwait(w.t, w.objs[c], w.objs[m], c, m).events);
    case _ =>
  }

  /** Only a dispatch records a context switch. */
  lemma StepNoSwitch(w: World, mv: Move)
    requires Enabled(w, mv) && !mv.Sched?
    ensures NoSwitch(Step(w, mv).events)
  {
    if mv.Call? { CallNoSwitch(w, mv.op); }
  }

  // ----- The recorded run -----

  /** A program under a scheduling policy, with the events recorded so far. */
  datatype Recording<U, S> = Recording(c: Config<U>, s: S, log: seq<Event>)

  function RecordStep<U, S>(prog: Program<U>, pick: Picker<S>, r: Recording<U, S>): Recording<U, S> {
    var (choice, s) := if AtSched(r.c.w) then pick(r.c.w.t.threads, r.s) else (None, r.s);
    if Enabled(r.c.w, NextMove(prog, r.c, choice)) then
      Recording(NextConfig(prog, r.c, choice), s, r.log + Step(r.c.w, NextMove(prog, r.c, choice)).events)
    else r
  }

  function Recorder<U, S>(prog: Program<U>, pick: Picker<S>): Recording<U, S> -> Recording<U, S> {
    r => RecordStep(prog, pick, r)
  }

  /** The recorded run after `n` steps. */
  function RecordN<U, S>(prog: Program<U>, pick: Picker<S>, r: Recording<U, S>, n: nat): Recording<U, S> {
    Iterate(Recorder(prog, pick), r, n)
  }

  function Iterate<T>(f: T -> T, x: T, n: nat): T {
    if n == 0 then x else f(Iterate(f, x, n - 1))
  }

  /** Two runs stay related when each pair of steps keeps them related. */
  lemma {:induction false} IterateTogether<A(!new), B(!new)>(f: A -> A, g: B -> B, a: A, b: B,
                                                             rel: (nat, A, B) -> bool, n: nat)
    requires rel(0, a, b)
    requires forall i: nat, y: B :: i < n && rel(i, Iterate(f, a, i), y) ==> rel(i + 1, Iterate(f, a, i + 1), g(y))
    ensures rel(n, Iterate(f, a, n), Iterate(g, b, n))
    decreases n
  {
    if n == 0 {
    } else {
      IterateTogether(f, g, a, b, rel, n - 1);
    }
  }

  // ----- The replayed run -----

  datatype Replaying<U> = Replaying(c: Config<U>, cur: Cursor)

  function ReplayStep<U>(prog: Program<U>, rs: seq<Record>, r: Replaying<U>): (next: Replaying<U>)
    ensures r.cur.idx <= |rs| ==> next.cur.idx <= |rs|
  {
    if r.cur.idx > |rs| then r
    else
      PickFollowsTrace(rs, r.cur, r.c.w.t.threads);
      var (choice, cur) := if AtSched(r.c.w) then ReplayPick(rs, r.cur, r.c.w.t.threads) else (None, r.cur);
      if Enabled(r.c.w, NextMove(prog, r.c, choice)) then Replaying(NextConfig(prog, r.c, choice), cur)
      else r
  }

  function Replayer<U>(prog: Program<U>, rs: seq<Record>): Replaying<U> -> Replaying<U> {
    r => ReplayStep(prog, rs, r)
  }

  /** The replayed run after `n` steps. */
  function ReplayN<U>(prog: Program<U>, rs: seq<Record>, r: Replaying<U>, n: nat): Replaying<U> {
    Iterate(Replayer(prog, rs), r, n)
  }

  // ----- Record, then replay -----

  /** The records of a trace: initialisation, the events in order, shutdown. */
  ghost predicate TraceOf(rs: seq<Record>, log: seq<Event>) {
    && |rs| == |log| + 2
    && rs[0].kind == EVT_RUNTIME_INIT && rs[|rs| - 1].kind == EVT_RUNTIME_SHUTDOWN
    && forall i :: 0 <= i < |log| ==> rs[i + 1] == MakeRecord(rs[i + 1].timestamp, log[i])
  }

  /** A sound world under a program that uses it properly. */
  ghost predicate Good<U(!new)>(prog: Program<U>, w: World) {
    Wf(w) && Disciplined(prog, w.objs)
  }

  lemma NextTidGrows(w: World, mv: Move)
    requires Wf(w) && Enabled(w, mv)
    ensures w.t.nextTid <= Step(w, mv).w.t.nextTid
  {
    if Creates(w, mv) {
      CreateShape(w, mv);
    } else if Reaped(w, mv).Some? {
      ReapShape(w, mv);
    } else {
      StepNames(w, mv);
    }
  }

  /** One recorded step: it is a real step, and the log grows by its events. */
  lemma RecordStepIs<U(!new), S(!new)>(prog: Program<U>, pick: Picker<S>, inv: S -> bool, r: Recording<U, S>)
    requires Good(prog, r.c.w) && SoundPicker(pick, inv) && inv(r.s)
    ensures var next := RecordStep(prog, pick, r);
            var choice := if AtSched(r.c.w) then pick(r.c.w.t.threads, r.s).0 else None;
            && (AtSched(r.c.w) ==> SoundPick(r.c.w.t.threads, choice))
            && Enabled(r.c.w, NextMove(prog, r.c, choice))
            && next.c == NextConfig(prog, r.c, choice)
            && next.log == r.log + Step(r.c.w, NextMove(prog, r.c, choice)).events
            && Good(prog, next.c.w) && inv(next.s) && r.c.w.t.nextTid <= next.c.w.t.nextTid
  {
    var choice := if AtSched(r.c.w) then pick(r.c.w.t.threads, r.s).0 else None;
    if AtSched(r.c.w) {
      assert SoundPick(r.c.w.t.threads, pick(r.c.w.t.threads, r.s).0);
      NeverStuck(prog, r.c, choice);
    } else if AtCall(r.c.w) {
      assert Proper(r.c.w.objs, r.c.w.t.current, NextCall(prog, r.c).0);
    }
    StepGood(prog, r.c.w, NextMove(prog, r.c, choice));
  }

  lemma StepGood<U(!new)>(prog: Program<U>, w: World, mv: Move)
    requires Good(prog, w) && Enabled(w, mv)
    ensures Good(prog, Step(w, mv).w) && w.t.nextTid <= Step(w, mv).w.t.nextTid
  {
    StepOk(w, mv);
    NextTidGrows(w, mv);
    DisciplinedKinds(prog, w.objs, Step(w, mv).w.objs);
  }

  lemma {:induction false} SkipOver(rs: seq<Record>, a: nat, b: nat)
    requires a <= b <= |rs| && forall j :: a <= j < b ==> !IsSwitch(rs, j)
    ensures SkipTo(rs, a) == SkipTo(rs, b)
    decreases b - a
  {
    if a == b {
    } else {
      SkipOver(rs, a + 1, b);
    }
  }

  /** The cursor and the position `1 + n` reached by recording have the same
      switch ahead of them. */
  predicate Aligned(rs: seq<Record>, cur: Cursor, n: nat) {
    cur.idx <= |rs| && 1 + n <= |rs| && SkipTo(rs, cur.idx) == SkipTo(rs, 1 + n)
  }

  predicate SwitchFrom(rs: seq<Record>, n: nat) {
    exists k :: n <= k < |rs| && IsSwitch(rs, k)
  }

  /** A scheduling point at which a sound policy finds nobody. */
  predicate FailedPick(w: World) {
    AtSched(w) && NoneReady(w.t.threads)
  }

  /** A dispatch: the next switch record names the slot the policy picked. */
  lemma DispatchMatches(w: World, i: nat, rs: seq<Record>, log: seq<Event>, cur: Cursor, n: nat)
    requires Wf(w) && w.t.current == 0 && IsReady(w.t.threads, i) && w.t.nextTid <= TWO32
    requires TraceOf(rs, log) && n < |log| && log[n] == DispatchEvents(w.t, i)[0] && Aligned(rs, cur, n)
    ensures ReplayPick(rs, cur, w.t.threads) == (Some(i), cur.(idx := n + 2))
  {
    var tid := w.t.threads[i].tid;
    SwitchTarget(rs[n + 1].timestamp, 0, tid);
    assert rs[n + 1] == MakeRecord(rs[n + 1].timestamp, log[n]);
    assert IsSwitch(rs, n + 1) && TargetOf(rs[n + 1]) == tid;
    SlotUnique(w.t, i);
  }

  /** A failed pick: the replay finds nobody either, and it reports divergence
      exactly when a switch record is still ahead. */
  lemma FailureMatches(w: World, rs: seq<Record>, cur: Cursor, n: nat)
    requires Wf(w) && w.t.current == 0 && NoneReady(w.t.threads) && Aligned(rs, cur, n)
    ensures var (choice, next) := ReplayPick(rs, cur, w.t.threads);
            && choice == None && Aligned(rs, next, n)
            && (next.diverged <==> cur.diverged || SwitchFrom(rs, 1 + n))
  {
    PickFollowsTrace(rs, cur, w.t.threads);
    var k := SkipTo(rs, 1 + n);
    if k < |rs| {
      assert IsSwitch(rs, k);
      forall tid ensures ReplayFind(w.t.threads, tid) == None {
        assert forall j :: 0 <= j < |w.t.threads| ==> w.t.threads[j].state != Running;
      }
    }
  }

  /** A step that is not a dispatch: the cursor stays aligned. */
  lemma EventsMatch(rs: seq<Record>, log: seq<Event>, cur: Cursor, n: nat, evs: seq<Event>)
    requires TraceOf(rs, log) && Aligned(rs, cur, n) && NoSwitch(evs)
    requires n + |evs| <= |log| && log[n..n + |evs|] == evs
    ensures Aligned(rs, cur, n + |evs|)
  {
    forall j | 1 + n <= j < 1 + n + |evs| ensures !IsSwitch(rs, j) {
      assert rs[j] == MakeRecord(rs[j].timestamp, log[j - 1]);
      assert log[j - 1] == evs[j - 1 - n];
    }
    SkipOver(rs, 1 + n, 1 + n + |evs|);
  }

  /** The replay of a step ends where the recorded step ended, in `r1`; it turns
      diverged exactly at a failed pick with a switch still ahead. */
  ghost predicate Matched<U, S>(prog: Program<U>, rs: seq<Record>, r: Recording<U, S>, r1: Recording<U, S>,
                                cur: Cursor)
  {
    var next := ReplayStep(prog, rs, Replaying(r.c, cur));
    && next.c == r1.c && Aligned(rs, next.cur, |r1.log|)
    && (next.cur.diverged <==> cur.diverged || (FailedPick(r.c.w) && SwitchFrom(rs, 1 + |r.log|)))
  }

  lemma SchedMatches<U(!new), S(!new)>(prog: Program<U>, pick: Picker<S>, inv: S -> bool, r: Recording<U, S>,
                                       rs: seq<Record>, log: seq<Event>, cur: Cursor)
    requires Good(prog, r.c.w) && SoundPicker(pick, inv) && inv(r.s) && r.c.w.t.nextTid <= TWO32 && AtSched(r.c.w)
    requires TraceOf(rs, log) && RecordStep(prog, pick, r).log <= log && Aligned(rs, cur, |r.log|)
    ensures Matched(prog, rs, r, RecordStep(prog, pick, r), cur)
  {
    RecordStepIs(prog, pick, inv, r);
    var w, n := r.c.w, |r.log|;
    var choice := pick(w.t.threads, r.s).0;
    if choice.Some? {
      var evs := DispatchEvents(w.t, choice.value);
      assert RecordStep(prog, pick, r).log == r.log + evs;
      assert log[n] == evs[0];
      DispatchMatches(w, choice.value, rs, log, cur, n);
      assert IsReady(w.t.threads, choice.value);
    } else {
      FailureMatches(w, rs, cur, n);
    }
  }

  lemma QuietMatches<U(!new), S(!new)>(prog: Program<U>, pick: Picker<S>, inv: S -> bool, r: Recording<U, S>,
                                       rs: seq<Record>, log: seq<Event>, cur: Cursor)
    requires Good(prog, r.c.w) && SoundPicker(pick, inv) && inv(r.s) && !AtSched(r.c.w)
    requires TraceOf(rs, log) && RecordStep(prog, pick, r).log <= log && Aligned(rs, cur, |r.log|)
    ensures Matched(prog, rs, r, RecordStep(prog, pick, r), cur)
  {
    RecordStepIs(prog, pick, inv, r);
    var w, n := r.c.w, |r.log|;
    var mv := NextMove(prog, r.c, None);
    StepNoSwitch(w, mv);
    var evs := Step(w, mv).events;
    assert RecordStep(prog, pick, r).log == r.log + evs;
    assert log[n..n + |evs|] == evs;
    EventsMatch(rs, log, cur, n, evs);
  }

  /** One step of the replay does what the recorded step did. */
  lemma StepMatches<U(!new), S(!new)>(prog: Program<U>, pick: Picker<S>, inv: S -> bool, r: Recording<U, S>,
                                      rs: seq<Record>, log: seq<Event>, cur: Cursor)
    requires Good(prog, r.c.w) && SoundPicker(pick, inv) && inv(r.s) && r.c.w.t.nextTid <= TWO32
    requires TraceOf(rs, log) && RecordStep(prog, pick, r).log <= log && Aligned(rs, cur, |r.log|)
    ensures Matched(prog, rs, r, RecordStep(prog, pick, r), cur)
  {
    if AtSched(r.c.w) {
      SchedMatches(prog, pick, inv, r, rs, log, cur);
    } else {
      QuietMatches(prog, pick, inv, r, rs, log, cur);
    }
  }

  // ----- Whole runs -----

  /** What a recorded step keeps. */
  lemma RecordStepKeeps<U(!new), S(!new)>(prog: Program<U>, pick: Picker<S>, inv: S -> bool, r: Recording<U, S>)
    requires Good(prog, r.c.w) && SoundPicker(pick, inv) && inv(r.s)
    ensures var next := RecordStep(prog, pick, r);
            Good(prog, next.c.w) && inv(next.s) && r.log <= next.log && r.c.w.t.nextTid <= next.c.w.t.nextTid
  {
    RecordStepIs(prog, pick, inv, r);
  }

  ghost predicate RecordingOk<U(!new), S>(prog: Program<U>, inv: S -> bool, r: Recording<U, S>) {
    Good(prog, r.c.w) && inv(r.s)
  }

  predicate Precedes<U, S>(a: Recording<U, S>, b: Recording<U, S>) {
    a.log <= b.log && a.c.w.t.nextTid <= b.c.w.t.nextTid
  }

  lemma RecordNGood<U(!new), S(!new)>(prog: Program<U>, pick: Picker<S>, inv: S -> bool,
                                      r0: Recording<U, S>, n: nat, m: nat)
    requires RecordingOk(prog, inv, r0) && SoundPicker(pick, inv) && n <= m
    ensures RecordingOk(prog, inv, RecordN(prog, pick, r0, n))
    ensures Precedes(RecordN(prog, pick, r0, n), RecordN(prog, pick, r0, m))
  {
    RecorderKeeps(prog, pick, inv);
    IterateOk(prog, inv, Recorder(prog, pick), r0, n);
    IteratePrecedes(prog, inv, Recorder(prog, pick), r0, n, m);
  }

  lemma RecorderKeeps<U(!new), S(!new)>(prog: Program<U>, pick: Picker<S>, inv: S -> bool)
    requires SoundPicker(pick, inv)
    ensures forall r {:trigger Recorder(prog, pick)(r)} :: RecordingOk(prog, inv, r) ==>
              RecordingOk(prog, inv, Recorder(prog, pick)(r)) && Precedes(r, Recorder(prog, pick)(r))
  {
    forall r | RecordingOk(prog, inv, r)
      ensures RecordingOk(prog, inv, Recorder(prog, pick)(r)) && Precedes(r, Recorder(prog, pick)(r))
    {
      RecordStepKeeps(prog, pick, inv, r);
    }
  }

  lemma {:induction false} IterateOk<U(!new), S(!new)>(prog: Program<U>, inv: S -> bool,
                                                       f: Recording<U, S> -> Recording<U, S>,
                                                       r0: Recording<U, S>, n: nat)
    requires RecordingOk(prog, inv, r0)
    requires forall r {:trigger f(r)} :: RecordingOk(prog, inv, r) ==> RecordingOk(prog, inv, f(r)) && Precedes(r, f(r))
    ensures RecordingOk(prog, inv, Iterate(f, r0, n))
    decreases n
  {
    if n == 0 {
    } else {
      IterateOk(prog, inv, f, r0, n - 1);
    }
  }

  lemma {:induction false} IteratePrecedes<U(!new), S(!new)>(prog: Program<U>, inv: S -> bool,
                                                             f: Recording<U, S> -> Recording<U, S>,
                                                             r0: Recording<U, S>, n: nat, m: nat)
    requires RecordingOk(prog, inv, r0) && n <= m
    requires forall r {:trigger f(r)} :: RecordingOk(prog, inv, r) ==> RecordingOk(prog, inv, f(r)) && Precedes(r, f(r))
    ensures Precedes(Iterate(f, r0, n), Iterate(f, r0, m))
    decreases m - n
  {
    if n == m {
    } else {
      IteratePrecedes(prog, inv, f, r0, n, m - 1);
      IterateOk(prog, inv, f, r0, m - 1);
    }
  }

  /** Step `j` of the recorded run was a failed pick, and the trace has a switch
      record after that point. */
  ghost predicate FailedBeforeSwitch<U, S>(prog: Program<U>, pick: Picker<S>, r0: Recording<U, S>,
                                           rs: seq<Record>, j: nat)
  {
    var r := RecordN(prog, pick, r0, j);
    FailedPick(r.c.w) && SwitchFrom(rs, 1 + |r.log|)
  }

  /** Record, then replay. Take any deterministic program, any sound scheduling
      policy and any run of `N` steps from a sound state. Replaying its trace
      from the same state goes through the same states, program memory
      included, at each of the `N` steps; and the replay is marked as diverged
      after `n` steps exactly when a failed pick among them precedes a later
      switch. */
  lemma ReplayReproduces<U(!new), S(!new)>(prog: Program<U>, pick: Picker<S>, inv: S -> bool,
                                           r0: Recording<U, S>, N: nat, rs: seq<Record>, n: nat)
    requires RecordingOk(prog, inv, r0) && SoundPicker(pick, inv) && r0.log == [] && n <= N
    requires RecordN(prog, pick, r0, N).c.w.t.nextTid <= TWO32
    requires TraceOf(rs, RecordN(prog, pick, r0, N).log)
    ensures var p := ReplayN(prog, rs, Replaying(r0.c, Cursor(0, false)), n);
            && p.c == RecordN(prog, pick, r0, n).c
            && (p.cur.diverged <==> exists j: nat :: j < n && FailedBeforeSwitch(prog, pick, r0, rs, j))
  {
    var f, g, p0 := Recorder(prog, pick), Replayer(prog, rs), Replaying(r0.c, Cursor(0, false));
    var rel := (i: nat, r: Recording<U, S>, p: Replaying<U>) => Together(prog, pick, r0, rs, i, r, p);
    assert rel(0, r0, p0) by { SkipOver(rs, 0, 1); }
    forall i: nat, p: Replaying<U> | i < n && rel(i, Iterate(f, r0, i), p)
      ensures rel(i + 1, Iterate(f, r0, i + 1), g(p))
    {
      TogetherStep(prog, pick, inv, r0, N, rs, i, p);
    }
    IterateTogether(f, g, r0, p0, rel, n);
  }

  /** The recorded and the replayed run after `i` steps. */
  ghost predicate Together<U, S>(prog: Program<U>, pick: Picker<S>, r0: Recording<U, S>, rs: seq<Record>,
                                 i: nat, r: Recording<U, S>, p: Replaying<U>)
  {
    && p.c == r.c && Aligned(rs, p.cur, |r.log|)
    && (p.cur.diverged <==> exists j: nat :: j < i && FailedBeforeSwitch(prog, pick, r0, rs, j))
  }

  lemma StepAlong<U(!new), S(!new)>(prog: Program<U>, pick: Picker<S>, inv: S -> bool, r0: Recording<U, S>,
                                    N: nat, rs: seq<Record>, i: nat, cur: Cursor)
    requires RecordingOk(prog, inv, r0) && SoundPicker(pick, inv) && i < N
    requires RecordN(prog, pick, r0, N).c.w.t.nextTid <= TWO32
    requires TraceOf(rs, RecordN(prog, pick, r0, N).log)
    requires Aligned(rs, cur, |RecordN(prog, pick, r0, i).log|)
    ensures Matched(prog, rs, RecordN(prog, pick, r0, i), RecordN(prog, pick, r0, i + 1), cur)
  {
    var r := RecordN(prog, pick, r0, i);
    RecordNGood(prog, pick, inv, r0, i, N);
    RecordNGood(prog, pick, inv, r0, i + 1, N);
    assert RecordN(prog, pick, r0, i + 1) == RecordStep(prog, pick, r);
    StepMatches(prog, pick, inv, r, rs, RecordN(prog, pick, r0, N).log, cur);
  }

  lemma TogetherStep<U(!new), S(!new)>(prog: Program<U>, pick: Picker<S>, inv: S -> bool, r0: Recording<U, S>,
                                       N: nat, rs: seq<Record>, i: nat, p: Replaying<U>)
    requires RecordingOk(prog, inv, r0) && SoundPicker(pick, inv) && i < N
    requires RecordN(prog, pick, r0, N).c.w.t.nextTid <= TWO32
    requires TraceOf(rs, RecordN(prog, pick, r0, N).log)
    requires Together(prog, pick, r0, rs, i, RecordN(prog, pick, r0, i), p)
    ensures Together(prog, pick, r0, rs, i + 1, RecordN(prog, pick, r0, i + 1), ReplayStep(prog, rs, p))
  {
    StepAlong(prog, pick, inv, r0, N, rs, i, p.cur);
    assert p == Replaying(RecordN(prog, pick, r0, i).c, p.cur);
    TogetherNext(prog, pick, r0, rs, i, p, RecordN(prog, pick, r0, i + 1), ReplayStep(prog, rs, p));
  }

  lemma TogetherNext<U(!new), S(!new)>(prog: Program<U>, pick: Picker<S>, r0: Recording<U, S>, rs: seq<Record>,
                                       i: nat, p: Replaying<U>, r1: Recording<U, S>, p1: Replaying<U>)
    requires p.cur.diverged <==> exists j: nat :: j < i && FailedBeforeSwitch(prog, pick, r0, rs, j)
    requires p1.c == r1.c && Aligned(rs, p1.cur, |r1.log|)
    requires p1.cur.diverged <==> p.cur.diverged || FailedBeforeSwitch(prog, pick, r0, rs, i)
    ensures Together(prog, pick, r0, rs, i + 1, r1, p1)
  {
    if FailedBeforeSwitch(prog, pick, r0, rs, i) {
      assert i < i + 1 && FailedBeforeSwitch(prog, pick, r0, rs, i);
    }
  }
}
