/** Deterministic programs on top of the step machine: what the contexts do
    between library calls, and the scheduling loop of a join, which ends. */
module Programs {
  import opened Types
  import opened Paths
  import opened Threads
  import opened Machine
  import opened Accounting
  import opened Shapes
  import opened Control
  import opened Deadlock
  import opened Scheduler

  /** The whole program, main context and green threads: given the shared user
      memory, who runs (0 is main) and what its last call returned, the next
      call and the memory at that point. */
  type Program<!U> = (U, nat, Result) -> (Op, U)

  datatype Config<U> = Config(w: World, mem: U)

  /** The current context is in its own code, about to make a call. */
  predicate AtCall(w: World) {
    if w.t.current == 0 then w.main.MRet? else Me(w) < |w.ctl| && w.ctl[Me(w)].Ret?
  }

  predicate AtSched(w: World) {
    && w.t.current == 0
    && (w.main.MYield?
        || (w.main.MJoin? && w.main.slot < |w.t.threads| && !Terminal(w.t.threads[w.main.slot].state)))
  }

  function LastResult(w: World): Result
    requires AtCall(w)
  {
    if w.t.current == 0 then w.main.res else w.ctl[Me(w)].res
  }

  /** The call the program makes next. */
  function NextCall<U>(prog: Program<U>, c: Config<U>): (Op, U)
    requires AtCall(c.w)
  {
    prog(c.mem, c.w.t.current, LastResult(c.w))
  }

  /** The program uses objects by their kinds, only green threads exit, and only
      the main context joins. */
  predicate Proper(objs: seq<Object>, who: nat, op: Op) {
    && (who == 0 ==> !op.Exit?) && (who != 0 ==> !op.Join?)
    && match op
       case On(k, call) => k < |objs| && Fits(objs[k].kind, call)
       case Init(k, _) => k < |objs|
       case CondWait(c, m) => c < |objs| && m < |objs| && objs[c].kind.Cond? && objs[m].kind.Mutex?
       case _ => true
  }

  ghost predicate Disciplined<U(!new)>(prog: Program<U>, objs: seq<Object>) {
    forall mem, who, res :: Proper(objs, who, prog(mem, who, res).0)
  }

  lemma DisciplinedKinds<U(!new)>(prog: Program<U>, objs: seq<Object>, objs': seq<Object>)
    requires Disciplined(prog, objs) && SameKinds(objs, objs')
    ensures Disciplined(prog, objs')
  {
    forall mem, who, res ensures Proper(objs', who, prog(mem, who, res).0) {
      assert Proper(objs, who, prog(mem, who, res).0);
    }
  }

  /** Nobody is ever stuck: in every sound state the current context makes a
      call, the scheduler is asked, or a suspended call goes on. */
  lemma NeverStuck<U(!new)>(prog: Program<U>, c: Config<U>, choice: Option<nat>)
    requires Wf(c.w) && Disciplined(prog, c.w.objs) && (choice.Some? ==> IsReady(c.w.t.threads, choice.value))
    ensures if AtCall(c.w) then Enabled(c.w, Call(NextCall(prog, c).0))
            else if AtSched(c.w) then Enabled(c.w, Sched(choice))
            else Enabled(c.w, Continue)
  {
    if AtCall(c.w) {
      assert Proper(c.w.objs, c.w.t.current, NextCall(prog, c).0);
    }
  }

  function NextMove<U>(prog: Program<U>, c: Config<U>, choice: Option<nat>): Move {
    if AtCall(c.w) then Call(NextCall(prog, c).0)
    else if AtSched(c.w) then Sched(choice)
    else Continue
  }

  function NextConfig<U>(prog: Program<U>, c: Config<U>, choice: Option<nat>): Config<U>
    requires Enabled(c.w, NextMove(prog, c, choice))
  {
    Config(Step(c.w, NextMove(prog, c, choice)).w, if AtCall(c.w) then NextCall(prog, c).1 else c.mem)
  }

  // ----- Appending to a run -----

  function Moved(w: World, mv: Move): World {
    if Enabled(w, mv) then Step(w, mv).w else w
  }

  /** A run is a path of the step machine. */
  lemma {:induction false} RunsPath(w: World, mvs: seq<Move>)
    ensures Runs(w, mvs) <==> Path(Enabled, Moved, w, mvs)
    ensures Runs(w, mvs) ==> Final(w, mvs) == PathEnd(Moved, w, mvs)
    decreases |mvs|
  {
    if mvs == [] {
    } else {
      RunsPath(Moved(w, mvs[0]), mvs[1..]);
    }
  }

  lemma RunsConcat(w: World, a: seq<Move>, b: seq<Move>)
    requires Runs(w, a) && Runs(Final(w, a), b)
    ensures Runs(w, a + b) && Final(w, a + b) == Final(Final(w, a), b)
  {
    RunsPath(w, a);
    RunsPath(Final(w, a), b);
    RunsPath(w, a + b);
    PathConcat(Enabled, Moved, w, a, b);
  }

  lemma RunsSnoc(w: World, mvs: seq<Move>, mv: Move)
    requires Runs(w, mvs) && Enabled(Final(w, mvs), mv)
    ensures Runs(w, mvs + [mv]) && Final(w, mvs + [mv]) == Step(Final(w, mvs), mv).w
  {
    assert Runs(Step(Final(w, mvs), mv).w, []);
    RunsConcat(w, mvs, [mv]);
  }

  // ----- One dispatch -----

  /** The program does finitely much: every call a green thread makes lowers the
      amount `left` of work that is left, and its exit does not raise it. */
  ghost predicate Finite<U(!new)>(prog: Program<U>, left: U -> nat) {
    forall mem, who, res :: who != 0 ==>
      var (op, next) := prog(mem, who, res);
      if op.Exit? then left(next) <= left(mem) else left(next) < left(mem)
  }

  /** The current thread has yet to return from the call it was suspended in. */
  function Suspended(w: World): nat {
    if w.t.current != 0 && Me(w) < |w.ctl| && !w.ctl[Me(w)].Ret? then 1 else 0
  }

  /** Going on with a suspended lock wakes nobody. */
  lemma ContinueReady(w: World)
    requires Wf(w) && Enabled(w, Continue) && w.t.current != 0
    ensures Count(Step(w, Continue).w.t.threads, Ready) == Count(w.t.threads, Ready)
    ensures Step(w, Continue).w.t.current == 0 || Suspended(Step(w, Continue).w) == 0
    ensures Step(w, Continue).w.main == w.main || Step(w, Continue).w.t.current == 0
  {
    ContinueShape(w);
    var i := Me(w);
    CountUpdate(w.t.threads, i, w.t.threads[i].(state := Blocked), Ready);
  }

  lemma DispatchReady(w: World, i: nat)
    requires Wf(w) && Enabled(w, Sched(Some(i)))
    ensures Count(Step(w, Sched(Some(i))).w.t.threads, Ready) + 1 == Count(w.t.threads, Ready)
    ensures Step(w, Sched(Some(i))).w.t.current != 0
  {
    DispatchOk(w.t, i);
    CountUpdate(w.t.threads, i, w.t.threads[i].(state := Running), Ready);
  }

  /** The measure of the scheduling loop: work left, then READY threads. */
  predicate Lower(left0: nat, ready0: nat, left1: nat, ready1: nat) {
    left1 < left0 || (left1 == left0 && ready1 < ready0)
  }

  /** The main context once the thread it dispatched has switched back: a
      `yield` is over with OK, a join goes on. */
  function SwitchedBack(main: MainControl): MainControl {
    if main.MYield? then MRet(Result(OK, 0)) else main
  }

  /** Where the main context is while the thread it dispatched from `main` runs. */
  predicate MainWaits(w: World, main: MainControl) {
    w.main == if w.t.current == 0 then SwitchedBack(main) else main
  }

  /** Work was used up, or none was and nobody became READY, and the thread has left
      the processor or the call it was suspended in. */
  predicate Progress<U>(left: U -> nat, c: Config<U>, c1: Config<U>) {
    || left(c1.mem) < left(c.mem)
    || (&& left(c1.mem) == left(c.mem) && Count(c1.w.t.threads, Ready) == Count(c.w.t.threads, Ready)
        && (c1.w.t.current == 0 || Suspended(c1.w) < Suspended(c.w)))
  }

  /** One step of the current green thread, whether a join or a `yield` of the
      main context dispatched it. */
  lemma GreenProgress<U(!new)>(prog: Program<U>, left: U -> nat, c: Config<U>)
    requires Wf(c.w) && Disciplined(prog, c.w.objs) && Finite(prog, left) && c.w.t.current != 0
    ensures Enabled(c.w, NextMove(prog, c, None)) && !NextMove(prog, c, None).Sched?
    ensures var c1 := NextConfig(prog, c, None);
            Wf(c1.w) && SameKinds(c.w.objs, c1.w.objs) && MainWaits(c1.w, c.w.main) && Progress(left, c, c1)
  {
    var mv := NextMove(prog, c, None);
    if AtCall(c.w) {
      assert Proper(c.w.objs, c.w.t.current, NextCall(prog, c).0);
    } else {
      ContinueReady(c.w);
    }
    StepOk(c.w, mv);
    GreenGoes(c.w, mv);
  }

  /** A dispatch of slot `i` under way from `c0`: the moves so far lead to `c`. */
  ghost predicate Dispatching<U>(c0: Config<U>, i: nat, mvs: seq<Move>, c: Config<U>) {
    && Wf(c.w) && SameKinds(c0.w.objs, c.w.objs) && MainWaits(c.w, c0.w.main)
    && Runs(c0.w, mvs) && Final(c0.w, mvs) == c.w && mvs != [] && mvs[0] == Sched(Some(i))
    && forall p :: 1 <= p < |mvs| ==> !mvs[p].Sched?
  }

  lemma DispatchStarts<U>(c0: Config<U>, i: nat)
    requires Wf(c0.w) && Enabled(c0.w, Sched(Some(i)))
    ensures Dispatching(c0, i, [Sched(Some(i))], Config(Step(c0.w, Sched(Some(i))).w, c0.mem))
    ensures Count(Step(c0.w, Sched(Some(i))).w.t.threads, Ready) < Count(c0.w.t.threads, Ready)
  {
    StepOk(c0.w, Sched(Some(i)));
    DispatchReady(c0.w, i);
    assert Runs(Step(c0.w, Sched(Some(i))).w, []);
  }

  lemma DispatchGoesOn<U(!new)>(prog: Program<U>, left: U -> nat, c0: Config<U>, i: nat, mvs: seq<Move>, c: Config<U>)
    requires Disciplined(prog, c0.w.objs) && Finite(prog, left) && Dispatching(c0, i, mvs, c) && c.w.t.current != 0
    ensures Enabled(c.w, NextMove(prog, c, None))
    ensures Dispatching(c0, i, mvs + [NextMove(prog, c, None)], NextConfig(prog, c, None))
    ensures Progress(left, c, NextConfig(prog, c, None))
  {
    DisciplinedKinds(prog, c0.w.objs, c.w.objs);
    GreenProgress(prog, left, c);
    RunsSnoc(c0.w, mvs, NextMove(prog, c, None));
  }

  /** `gth_scheduler_run_next` once slot `i` is picked, for a join or for a `yield`
      of the main context: the thread runs until it yields, blocks or exits. The
      dispatch ends, and it uses up work or leaves fewer threads READY. */
  method RunNext<U(!new)>(prog: Program<U>, ghost left: U -> nat, c0: Config<U>, i: nat)
    returns (c: Config<U>, ghost mvs: seq<Move>)
    requires Wf(c0.w) && Disciplined(prog, c0.w.objs) && Finite(prog, left) && Enabled(c0.w, Sched(Some(i)))
    ensures Wf(c.w) && c.w.t.current == 0 && c.w.main == SwitchedBack(c0.w.main) && SameKinds(c0.w.objs, c.w.objs)
    ensures Runs(c0.w, mvs) && Final(c0.w, mvs) == c.w && mvs != [] && mvs[0] == Sched(Some(i))
    ensures forall p :: 1 <= p < |mvs| ==> !mvs[p].Sched?
    ensures Lower(left(c0.mem), Count(c0.w.t.threads, Ready), left(c.mem), Count(c.w.t.threads, Ready))
  {
    DispatchStarts(c0, i);
    c := Config(Step(c0.w, Sched(Some(i))).w, c0.mem);
    mvs := [Sched(Some(i))];
    while c.w.t.current != 0
      invariant Dispatching(c0, i, mvs, c)
      invariant Lower(left(c0.mem), Count(c0.w.t.threads, Ready), left(c.mem), Count(c.w.t.threads, Ready))
      decreases left(c.mem), c.w.t.current != 0, Suspended(c.w)
    {
      DispatchGoesOn(prog, left, c0, i, mvs, c);
      mvs := mvs + [NextMove(prog, c, None)];
      c := NextConfig(prog, c, None);
    }
  }

  // ----- The scheduling loop of a join -----

  /** A scheduling policy with its private state. */
  type Picker<!S> = (seq<Thread>, S) -> (Option<nat>, S)

  /** From private states in `inv` the policy picks a READY slot if there is one. */
  ghost predicate SoundPicker<S(!new)>(pick: Picker<S>, inv: S -> bool) {
    forall ts, s :: |ts| == MAX_THREADS && inv(s) ==> SoundPick(ts, pick(ts, s).0) && inv(pick(ts, s).1)
  }

  predicate NobodyRuns(ts: seq<Thread>) {
    forall i :: 0 <= i < |ts| ==> ts[i].state != Running
  }

  /** What every mode of the scheduler promises, replay included: from private
      states in `inv`, and while no slot is RUNNING, it picks a READY slot or none. */
  ghost predicate ReadyPicker<S(!new)>(pick: Picker<S>, inv: S -> bool) {
    forall ts, s :: |ts| == MAX_THREADS && inv(s) && NobodyRuns(ts) ==>
      (pick(ts, s).0.Some? ==> IsReady(ts, pick(ts, s).0.value)) && inv(pick(ts, s).1)
  }

  lemma SoundIsReady<S(!new)>(pick: Picker<S>, inv: S -> bool)
    requires SoundPicker(pick, inv)
    ensures ReadyPicker(pick, inv)
  {
    forall ts, s | |ts| == MAX_THREADS && inv(s) && NobodyRuns(ts)
      ensures (pick(ts, s).0.Some? ==> IsReady(ts, pick(ts, s).0.value)) && inv(pick(ts, s).1)
    {
      assert SoundPick(ts, pick(ts, s).0);
    }
  }

  predicate Decides<S>(pick: Picker<S>, w: World, s: S, mv: Move) {
    mv.Sched? ==> mv.choice == pick(w.t.threads, s).0
  }

  function PickState<S>(pick: Picker<S>, w: World, s: S, mv: Move): S {
    if mv.Sched? then pick(w.t.threads, s).1 else s
  }

  /** Every scheduling decision of the run is the one `pick` makes, starting in
      its private state `s` and ending in `last`. */
  ghost predicate PickedBy<S>(pick: Picker<S>, w: World, s: S, mvs: seq<Move>, last: S)
    requires Runs(w, mvs)
    decreases |mvs|
  {
    if mvs == [] then s == last
    else
      && Decides(pick, w, s, mvs[0])
      && PickedBy(pick, Step(w, mvs[0]).w, PickState(pick, w, s, mvs[0]), mvs[1..], last)
  }

  /** Decided runs are paths of the step machine paired with the policy's state. */
  ghost predicate PickOk<S>(pick: Picker<S>, ws: (World, S), mv: Move) {
    Enabled(ws.0, mv) && Decides(pick, ws.0, ws.1, mv)
  }

  function PickMoved<S>(pick: Picker<S>, ws: (World, S), mv: Move): (World, S) {
    (Moved(ws.0, mv), PickState(pick, ws.0, ws.1, mv))
  }

  lemma {:induction false} PickedPath<S>(pick: Picker<S>, w: World, s: S, mvs: seq<Move>, last: S)
    requires Runs(w, mvs)
    ensures var ok, step := (ws, mv) => PickOk(pick, ws, mv), (ws, mv) => PickMoved(pick, ws, mv);
            && (PickedBy(pick, w, s, mvs, last) <==>
                  Path(ok, step, (w, s), mvs) && PathEnd(step, (w, s), mvs).1 == last)
            && PathEnd(step, (w, s), mvs).0 == Final(w, mvs)
    decreases |mvs|
  {
    if mvs == [] {
    } else {
      PickedPath(pick, Step(w, mvs[0]).w, PickState(pick, w, s, mvs[0]), mvs[1..], last);
    }
  }

  lemma PickedConcat<S>(pick: Picker<S>, w: World, s: S, a: seq<Move>, t: S, b: seq<Move>, last: S)
    requires Runs(w, a) && PickedBy(pick, w, s, a, t) && Runs(Final(w, a), b) && PickedBy(pick, Final(w, a), t, b, last)
    ensures Runs(w, a + b) && PickedBy(pick, w, s, a + b, last)
  {
    RunsConcat(w, a, b);
    PickedPath(pick, w, s, a, t);
    PickedPath(pick, Final(w, a), t, b, last);
    PickedPath(pick, w, s, a + b, last);
    PathConcat((ws, mv) => PickOk(pick, ws, mv), (ws, mv) => PickMoved(pick, ws, mv), (w, s), a, b);
  }

  lemma {:induction false} PickedQuiet<S>(pick: Picker<S>, w: World, s: S, mvs: seq<Move>)
    requires Runs(w, mvs) && forall p :: 0 <= p < |mvs| ==> !mvs[p].Sched?
    ensures PickedBy(pick, w, s, mvs, s)
    decreases |mvs|
  {
    if mvs == [] {
    } else {
      PickedQuiet(pick, Step(w, mvs[0]).w, s, mvs[1..]);
    }
  }

  /** A run followed by one dispatch that the policy decided. */
  lemma PickedRound<S>(pick: Picker<S>, w: World, s: S, mvs: seq<Move>, t: S, run: seq<Move>)
    requires Runs(w, mvs) && PickedBy(pick, w, s, mvs, t) && Runs(Final(w, mvs), run) && run != []
    requires run[0] == Sched(pick(Final(w, mvs).t.threads, t).0) && forall p :: 1 <= p < |run| ==> !run[p].Sched?
    ensures Runs(w, mvs + run) && Final(w, mvs + run) == Final(Final(w, mvs), run)
    ensures PickedBy(pick, w, s, mvs + run, pick(Final(w, mvs).t.threads, t).1)
  {
    var u := Final(w, mvs);
    RunsConcat(w, mvs, run);
    PickedQuiet(pick, Step(u, run[0]).w, pick(u.t.threads, t).1, run[1..]);
    PickedConcat(pick, w, s, mvs, t, run, pick(u.t.threads, t).1);
  }

  /** `gth_scheduler_run_until` for a thread that exists, in any mode. For finite
      programs the loop ends: with OK exactly when the thread has finished,
      otherwise with EBUSY and then the mode picked nobody, which for a sound
      policy means that no thread is READY. All decisions are the mode's. */
  method RunUntil<U(!new), S(!new)>(prog: Program<U>, ghost left: U -> nat, pick: Picker<S>, ghost inv: S -> bool,
                                    c0: Config<U>, s0: S)
    returns (status: Status, c: Config<U>, s: S, ghost mvs: seq<Move>, ghost last: S)
    requires Wf(c0.w) && Disciplined(prog, c0.w.objs) && Finite(prog, left) && ReadyPicker(pick, inv) && inv(s0)
    requires c0.w.main.MJoin? && c0.w.t.current == 0
    ensures FindSlot(c0.w.t.threads, c0.w.main.tid) == c0.w.main.slot
    ensures Wf(c.w) && c.w.main == c0.w.main && c.w.t.current == 0
    ensures Runs(c0.w, mvs) && Final(c0.w, mvs) == c.w && PickedBy(pick, c0.w, s0, mvs, last)
    ensures s == if status == OK then last else pick(c.w.t.threads, last).1
    ensures status == if Terminal(c.w.t.threads[c.w.main.slot].state) then OK else EBUSY
    ensures inv(last) && (status == EBUSY ==> pick(c.w.t.threads, last).0 == None)
    ensures status == EBUSY && SoundPicker(pick, inv) ==> NoneReady(c.w.t.threads)
  {
    SlotUnique(c0.w.t, c0.w.main.slot);
    c, s, mvs, last := c0, s0, [], s0;
    while !Terminal(c.w.t.threads[c.w.main.slot].state)
      invariant Joining(pick, c0, s0, mvs, c, last) && inv(s) && s == last
      decreases left(c.mem), Count(c.w.t.threads, Ready)
    {
      PickAllowed(pick, inv, c.w, s);
      var (choice, next) := pick(c.w.t.threads, s);
      s := next;
      if choice.None? {
        return EBUSY, c, s, mvs, last;
      }
      c, mvs := JoinRound(prog, left, pick, c0, s0, mvs, c, last, choice.value);
      last := next;
    }
    status := OK;
  }

  /** One round of that loop: the picked slot is dispatched and switches back. */
  method JoinRound<U(!new), S(!new)>(prog: Program<U>, ghost left: U -> nat, ghost pick: Picker<S>,
                                     ghost c0: Config<U>, ghost s0: S, ghost mvs: seq<Move>, c: Config<U>,
                                     ghost last: S, i: nat)
    returns (c1: Config<U>, ghost mvs1: seq<Move>)
    requires Disciplined(prog, c0.w.objs) && Finite(prog, left) && Joining(pick, c0, s0, mvs, c, last)
    requires c0.w.main.MJoin? && Enabled(c.w, Sched(Some(i))) && pick(c.w.t.threads, last).0 == Some(i)
    ensures Joining(pick, c0, s0, mvs1, c1, pick(c.w.t.threads, last).1)
    ensures Lower(left(c.mem), Count(c.w.t.threads, Ready), left(c1.mem), Count(c1.w.t.threads, Ready))
  {
    DisciplinedKinds(prog, c0.w.objs, c.w.objs);
    ghost var run;
    c1, run := RunNext(prog, left, c, i);
    PickedRound(pick, c0.w, s0, mvs, last, run);
    mvs1 := mvs + run;
  }

  /** The loop of a join under way from `c0`, back in the main context. */
  ghost predicate Joining<U, S>(pick: Picker<S>, c0: Config<U>, s0: S, mvs: seq<Move>, c: Config<U>, last: S) {
    && Wf(c.w) && c.w.main == c0.w.main && c.w.t.current == 0 && SameKinds(c0.w.objs, c.w.objs)
    && Runs(c0.w, mvs) && Final(c0.w, mvs) == c.w && PickedBy(pick, c0.w, s0, mvs, last)
  }

  lemma PickAllowed<S(!new)>(pick: Picker<S>, inv: S -> bool, w: World, s: S)
    requires Wf(w) && w.t.current == 0 && ReadyPicker(pick, inv) && inv(s)
    ensures var (choice, next) := pick(w.t.threads, s);
            && inv(next) && (choice.Some? ==> IsReady(w.t.threads, choice.value))
            && (choice.None? && SoundPicker(pick, inv) ==> NoneReady(w.t.threads))
  {
    assert NobodyRuns(w.t.threads);
    assert SoundPicker(pick, inv) ==> SoundPick(w.t.threads, pick(w.t.threads, s).0);
  }
}
