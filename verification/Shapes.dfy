/** Equations for single steps, so that later proofs need not look into the
    step function. */
module Shapes {
  import opened Types
  import opened Sync
  import opened Machine

  /** The move is, or goes on with, a call on object `k`. */
  predicate Names(w: World, mv: Move, k: nat) {
    match mv
    case Call(On(k', _)) => k' == k
    case Call(Init(k', _)) => k' == k
    case Call(CondWait(c, m)) => c == k || m == k
    case Call(_) => false
    case Continue => w.t.current != 0 && Me(w) < |w.ctl| && !w.ctl[Me(w)].Ret? && w.ctl[Me(w)].m == k
    case Sched(_) => false
  }

  lemma OnShape(w: World, k: nat, call: ObjectCall)
    requires Enabled(w, Call(On(k, call)))
    ensures var n, e := Step(w, Call(On(k, call))), Perform(w.t, w.objs[k], k, call);
            && n.w.objs == w.objs[k := e.obj] && n.w.t.threads == e.t.threads
            && n.outcome == e.outcome && n.events == e.events
  {
  }

  lemma CondWaitShape(w: World, c: nat, m: nat)
    requires Enabled(w, Call(CondWait(c, m)))
    ensures var n, e := Step(w, Call(CondWait(c, m))), CondAwait(w.t, w.objs[c], w.objs[m], c, m);
            && n.w.objs == w.objs[c := e.cv][m := e.mx] && n.w.t.threads == e.t.threads
            && n.outcome == e.outcome && n.events == e.events
  {
  }

  /** The call that a suspended thread goes on with. */
  function Resumed(w: World): Effect
    requires Enabled(w, Continue) && w.t.current != 0
  {
    var m := w.ctl[Me(w)].m;
    if w.ctl[Me(w)].InLock? then MutexRelock(w.t, w.objs[m], m, Me(w)) else MutexLock(w.t, w.objs[m], m)
  }

  lemma ContinueShape(w: World)
    requires Enabled(w, Continue) && w.t.current != 0
    ensures var n, e := Step(w, Continue), Resumed(w);
            && n.w.objs == w.objs[w.ctl[Me(w)].m := e.obj]
            && n.w.t.threads == e.t.threads && n.outcome == e.outcome && n.events == e.events
  {
  }

  /** A call that names no object leaves the objects alone. */
  lemma ThreadCallShape(w: World, op: Op)
    requires Enabled(w, Call(op)) && !op.On? && !op.Init? && !op.CondWait?
    ensures Step(w, Call(op)).w.objs == w.objs
  {
  }

  lemma InitShape(w: World, k: nat, count: nat)
    requires Enabled(w, Call(Init(k, count)))
    ensures var n := Step(w, Call(Init(k, count)));
            n.w.objs == w.objs[k := Initial(w.objs[k].kind, count)] && n.w.t.threads == w.t.threads
            && n.outcome == Status0(OK)
  {
  }

  lemma SchedShape(w: World, mv: Move)
    requires Enabled(w, mv) && (mv.Sched? || (mv == Continue && w.t.current == 0))
    ensures Step(w, mv).w.objs == w.objs
  {
  }

  /** An object that the move does not name keeps its value. */
  lemma UnnamedKept(w: World, mv: Move, k: nat)
    requires Enabled(w, mv) && k < |w.objs| && !Names(w, mv, k)
    ensures k < |Step(w, mv).w.objs| && Step(w, mv).w.objs[k] == w.objs[k]
  {
    match mv
    case Sched(_) => SchedShape(w, mv);
    case Continue => if w.t.current != 0 { ContinueShape(w); } else { SchedShape(w, mv); }
    case Call(op) =>
      match op
      case On(k', call) => OnShape(w, k', call);
      case Init(k', count) => InitShape(w, k', count);
      case CondWait(c, m) => CondWaitShape(w, c, m);
      case _ => ThreadCallShape(w, op);
  }
}
