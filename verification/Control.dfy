/** Where control goes: a call returns to the context that made it, a switch
    resumes the main context, and nobody else's resume point changes. */
module Control {
  import opened Types
  import opened Threads
  import opened Machine
  import opened Accounting
  import opened Identity

  /** The resume points that a move in slot `me` has no business with. */
  predicate OthersKept(w: World, mv: Move, me: nat)
    requires Enabled(w, mv)
  {
    var u := Step(w, mv).w;
    && |u.ctl| == |w.ctl|
    && forall i :: 0 <= i < |w.ctl| && i != me && !(Creates(w, mv) && i == EmptySlot(w.t.threads)) ==>
         u.ctl[i] == w.ctl[i]
  }

  /** The current thread goes on with the result of its call, or it is suspended
      at the resume point of its call and the main context is current again; a
      `yield` of the main context that dispatched it is then over with OK. */
  predicate Goes(w: World, n: Next)
    requires Me(w) < |n.w.ctl|
  {
    match n.outcome
    case Return(res) => n.w.t.current == w.t.current && n.w.main == w.main && n.w.ctl[Me(w)] == Ret(res)
    case Swap(resume) =>
      && n.w.t.current == 0 && n.w.ctl[Me(w)] == resume
      && n.w.main == if w.main.MYield? then MRet(Result(OK, 0)) else w.main
  }

  lemma ContinueGoes(w: World)
    requires Wf(w) && Enabled(w, Continue) && w.t.current != 0
    ensures OthersKept(w, Continue, Me(w)) && Goes(w, Step(w, Continue))
  {
  }

  lemma OnGoes(w: World, k: nat, call: ObjectCall)
    requires Wf(w) && Enabled(w, Call(On(k, call))) && w.t.current != 0
    ensures OthersKept(w, Call(On(k, call)), Me(w)) && Goes(w, Step(w, Call(On(k, call))))
  {
    PerformOk(w.t, w.objs[k], k, call);
  }

  /** Every move of a green thread. */
  lemma GreenGoes(w: World, mv: Move)
    requires Wf(w) && Enabled(w, mv) && w.t.current != 0
    ensures OthersKept(w, mv, Me(w)) && Me(w) < |Step(w, mv).w.ctl| && Goes(w, Step(w, mv))
  {
    match mv
    case Continue => ContinueGoes(w);
    case Call(op) =>
      match op
      case On(k, call) => OnGoes(w, k, call);
      case CondWait(c, m) => CondWaitOk(w.t, w.objs[c], w.objs[m], c, m);
      case Cancel(tid) => CancelOk(w.t, tid);
      case _ =>
  }

  /** Every move of the main context: it goes on with the result of its call, it
      enters the scheduling loop, or the picked thread becomes current while the
      main context stays where it is. */
  lemma MainGoes(w: World, mv: Move)
    requires Wf(w) && Enabled(w, mv) && w.t.current == 0
    ensures OthersKept(w, mv, |w.ctl|)
    ensures var n := Step(w, mv);
            match n.outcome
            case Return(res) => n.w.t.current == 0 && n.w.main == MRet(res)
            case Swap(_) =>
              if mv.Sched? then
                mv.choice.Some? && n.w.t.current == w.t.threads[mv.choice.value].tid && n.w.main == w.main
              else n.w.t.current == 0 && (n.w.main == MYield || n.w.main.MJoin?)
  {
    match mv
    case Call(On(k, call)) => PerformOk(w.t, w.objs[k], k, call);
    case Call(CondWait(c, m)) => CondWaitOk(w.t, w.objs[c], w.objs[m], c, m);
    case Call(Cancel(tid)) => CancelOk(w.t, tid);
    case _ =>
  }

  // ----- From a switch to the next own move -----

  /** In this run thread `tid` makes no move, and nobody joins it. */
  ghost predicate Rests(w: World, mvs: seq<Move>, tid: nat)
    requires Runs(w, mvs)
    decreases |mvs|
  {
    mvs == [] ||
    (w.t.current != tid && Reaped(w, mvs[0]) != Some(tid) && Rests(Step(w, mvs[0]).w, mvs[1..], tid))
  }

  lemma NameRests(w: World, mv: Move, i: nat, tid: nat)
    requires Wf(w) && Enabled(w, mv) && i < |w.t.threads| && Named(w.t.threads[i], tid) && Reaped(w, mv) != Some(tid)
    ensures i < |Step(w, mv).w.t.threads| && Named(Step(w, mv).w.t.threads[i], tid)
  {
    if Creates(w, mv) {
      CreateShape(w, mv);
    } else if Reaped(w, mv).Some? {
      ReapShape(w, mv);
    } else {
      StepNames(w, mv);
    }
  }

  lemma PointRests(w: World, mv: Move, i: nat, tid: nat)
    requires Wf(w) && Enabled(w, mv) && i < |w.t.threads| && Named(w.t.threads[i], tid) && w.t.current != tid
    ensures i < |Step(w, mv).w.ctl| && Step(w, mv).w.ctl[i] == w.ctl[i]
  {
    if w.t.current == 0 {
      MainGoes(w, mv);
    } else {
      GreenGoes(w, mv);
    }
  }

  lemma {:induction false} RunRests(w: World, mvs: seq<Move>, i: nat, tid: nat)
    requires Wf(w) && Runs(w, mvs) && i < |w.t.threads| && Named(w.t.threads[i], tid) && Rests(w, mvs, tid)
    ensures var u := Final(w, mvs);
            && i < |u.t.threads| && Named(u.t.threads[i], tid) && i < |u.ctl| && u.ctl[i] == w.ctl[i]
    decreases |mvs|
  {
    if mvs == [] {
    } else {
      StepOk(w, mvs[0]);
      NameRests(w, mvs[0], i, tid);
      PointRests(w, mvs[0], i, tid);
      RunRests(Step(w, mvs[0]).w, mvs[1..], i, tid);
    }
  }

  /** A suspended thread goes on where it stopped: from the move that suspends it
      until its next own move, over any run that does not free its slot, it keeps
      its slot and the resume point of that move. */
  lemma ResumesWhereItStopped(w: World, mv: Move, mvs: seq<Move>)
    requires Wf(w) && w.t.current != 0 && Enabled(w, mv) && Step(w, mv).outcome.Swap?
    requires Runs(Step(w, mv).w, mvs) && Rests(Step(w, mv).w, mvs, w.t.current)
    ensures var u := Final(Step(w, mv).w, mvs);
            && Me(w) < |u.t.threads| && Named(u.t.threads[Me(w)], w.t.current)
            && Me(w) < |u.ctl| && u.ctl[Me(w)] == Step(w, mv).outcome.resume
  {
    StepOk(w, mv);
    GreenGoes(w, mv);
    NameRests(w, mv, Me(w), w.t.current);
    RunRests(Step(w, mv).w, mvs, Me(w), w.t.current);
  }
}
