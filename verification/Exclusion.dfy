/** Mutual exclusion over whole runs, told from the outcomes that the calling
    contexts see and not from the fields of the mutex. */
module Exclusion {
  import opened Types
  import opened Sync
  import opened Machine
  import opened Accounting
  import opened Shapes

  /** The move ends a lock, a trylock or a condition wait on `m` with OK. */
  predicate Acquires(w: World, mv: Move, m: nat)
    requires Enabled(w, mv)
  {
    && Step(w, mv).outcome == Status0(OK)
    && (mv == Call(On(m, Lock)) || mv == Call(On(m, Trylock))
        || (mv == Continue && w.t.current != 0 && w.ctl[Me(w)].m == m))
  }

  /** The move unlocks `m` with OK or starts to wait having released `m`. */
  predicate Releases(w: World, mv: Move, m: nat)
    requires Enabled(w, mv)
  {
    || (mv == Call(On(m, Unlock)) && Step(w, mv).outcome == Status0(OK))
    || (mv.Call? && mv.op.CondWait? && mv.op.m == m && Step(w, mv).outcome.Swap?)
  }

  /** Who is between acquisition and release of `m` after the move. */
  function HoldersNext(held: set<nat>, w: World, mv: Move, m: nat): set<nat>
    requires Enabled(w, mv)
  {
    if Acquires(w, mv, m) then held + {w.t.current}
    else if Releases(w, mv, m) then held - {w.t.current}
    else held
  }

  function Holders(held: set<nat>, w: World, mvs: seq<Move>, m: nat): set<nat>
    requires Runs(w, mvs)
    decreases |mvs|
  {
    if mvs == [] then held
    else Holders(HoldersNext(held, w, mvs[0], m), Step(w, mvs[0]).w, mvs[1..], m)
  }

  /** The caller may release `m` although the main context holds it: a mutex
      with owner 0 is unlocked without the owner check. */
  predicate Unguarded(w: World, m: nat)
    requires m < |w.objs|
  {
    w.t.current != 0 && w.objs[m].initialized && w.objs[m].kind == Mutex(true, 0)
  }

  /** The move takes `m` from its holder, told from the state before it: a green
      thread unlocks the mutex of the main context or starts to wait with it, or a
      held mutex is initialised again. */
  predicate ForeignRelease(w: World, mv: Move, m: nat)
    requires Enabled(w, mv) && m < |w.objs| && w.objs[m].kind.Mutex?
  {
    mv.Call? &&
    match mv.op
    case Init(k, _) => k == m && w.objs[m].kind.locked
    case On(k, Unlock) => k == m && Unguarded(w, m)
    case CondWait(c, k) => k == m && Unguarded(w, m) && w.objs[c].initialized && !Full(w.objs[c].q)
    case _ => false
  }

  /** These are the moves that release a mutex whose owner is not the caller. */
  lemma ForeignReleaseIs(w: World, mv: Move, m: nat)
    requires Wf(w) && Enabled(w, mv) && m < |w.objs| && w.objs[m].kind.Mutex?
    ensures ForeignRelease(w, mv, m) <==>
              || (Releases(w, mv, m) && w.objs[m].kind.owner != w.t.current)
              || (mv.Call? && mv.op.Init? && mv.op.k == m && w.objs[m].kind.locked)
  {
  }

  /** The mutex field `locked` and `owner` say who holds it. */
  predicate Tells(o: Object, held: set<nat>) {
    o.kind.Mutex? && held == if o.kind.locked then {o.kind.owner} else {}
  }

  lemma UntouchedTells(w: World, mv: Move, m: nat)
    requires Wf(w) && Enabled(w, mv) && m < |w.objs| && w.objs[m].kind.Mutex?
    requires mv.Sched? || (mv.Call? && !mv.op.Init? && !mv.op.On? && !mv.op.CondWait?)
    ensures Step(w, mv).w.objs == w.objs && !Acquires(w, mv, m) && !Releases(w, mv, m)
  {
  }

  lemma ContinueTells(w: World, m: nat, held: set<nat>)
    requires Wf(w) && Enabled(w, Continue) && m < |w.objs| && Tells(w.objs[m], held)
    ensures Tells(Step(w, Continue).w.objs[m], HoldersNext(held, w, Continue, m))
  {
  }

  lemma OnTells(w: World, k: nat, call: ObjectCall, m: nat, held: set<nat>)
    requires Wf(w) && Enabled(w, Call(On(k, call))) && m < |w.objs| && Tells(w.objs[m], held)
    ensures Tells(Step(w, Call(On(k, call))).w.objs[m], HoldersNext(held, w, Call(On(k, call)), m))
            <==> !ForeignRelease(w, Call(On(k, call)), m)
  {
    var mv, me := Call(On(k, call)), w.t.current;
    ForeignReleaseIs(w, mv, m);
    var held' := HoldersNext(held, w, mv, m);
    if Releases(w, mv, m) {
      assert w.objs[m].kind.owner in held && held' == held - {me};
      assert w.objs[m].kind.owner == me ==> held' == {};
      assert w.objs[m].kind.owner != me ==> w.objs[m].kind.owner in held';
    } else if Acquires(w, mv, m) {
      assert held' == {me};
    }
  }

  lemma CondWaitTells(w: World, c: nat, m': nat, m: nat, held: set<nat>)
    requires Wf(w) && Enabled(w, Call(CondWait(c, m'))) && m < |w.objs| && Tells(w.objs[m], held)
    ensures Tells(Step(w, Call(CondWait(c, m'))).w.objs[m], HoldersNext(held, w, Call(CondWait(c, m')), m))
            <==> !ForeignRelease(w, Call(CondWait(c, m')), m)
  {
    var mv, me := Call(CondWait(c, m')), w.t.current;
    ForeignReleaseIs(w, mv, m);
    var held' := HoldersNext(held, w, mv, m);
    if Releases(w, mv, m) {
      assert w.objs[m].kind.owner in held && held' == held - {me};
      assert w.objs[m].kind.owner == me ==> held' == {};
      assert w.objs[m].kind.owner != me ==> w.objs[m].kind.owner in held';
    }
  }

  /** One step keeps the fields in agreement with the holders exactly when it is
      not a foreign release. */
  lemma StepTells(w: World, mv: Move, m: nat, held: set<nat>)
    requires Wf(w) && Enabled(w, mv) && m < |w.objs| && Tells(w.objs[m], held)
    ensures Tells(Step(w, mv).w.objs[m], HoldersNext(held, w, mv, m)) <==> !ForeignRelease(w, mv, m)
  {
    match mv
    case Continue => ContinueTells(w, m, held);
    case Sched(_) => UntouchedTells(w, mv, m);
    case Call(op) =>
      match op
      case On(k, call) => OnTells(w, k, call, m, held);
      case CondWait(c, m') => CondWaitTells(w, c, m', m, held);
      case Init(k, _) => assert w.objs[m].kind.locked ==> w.objs[m].kind.owner in held;
      case _ => UntouchedTells(w, mv, m);
  }

  ghost predicate NoForeignRelease(w: World, mvs: seq<Move>, m: nat)
    requires Wf(w) && Runs(w, mvs) && m < |w.objs| && w.objs[m].kind.Mutex?
    decreases |mvs|
  {
    mvs == [] ||
    (&& !ForeignRelease(w, mvs[0], m)
     && (StepOk(w, mvs[0]); NoForeignRelease(Step(w, mvs[0]).w, mvs[1..], m)))
  }

  lemma {:induction false} RunTells(w: World, mvs: seq<Move>, m: nat, held: set<nat>)
    requires Wf(w) && Runs(w, mvs) && m < |w.objs| && Tells(w.objs[m], held)
    requires NoForeignRelease(w, mvs, m)
    ensures m < |Final(w, mvs).objs| && Tells(Final(w, mvs).objs[m], Holders(held, w, mvs, m))
    decreases |mvs|
  {
    if mvs == [] {
    } else {
      StepOk(w, mvs[0]);
      StepTells(w, mvs[0], m, held);
      RunTells(Step(w, mvs[0]).w, mvs[1..], m, HoldersNext(held, w, mvs[0], m));
    }
  }

  /** For every run from initialisation, cancellations included, in which no
      green thread gives away a mutex of the main context: at most one context
      is between acquiring and releasing `m`, `locked` says whether there is one
      and `owner` says which. */
  lemma MutualExclusion(w0: World, mvs: seq<Move>, m: nat)
    requires Start(w0) && Wf(w0) && Runs(w0, mvs) && m < |w0.objs| && w0.objs[m].kind.Mutex?
    requires NoForeignRelease(w0, mvs, m)
    ensures m < |Final(w0, mvs).objs| && Final(w0, mvs).objs[m].kind.Mutex?
    ensures var o, held := Final(w0, mvs).objs[m], Holders({}, w0, mvs, m);
            && (forall a, b :: a in held && b in held ==> a == b)
            && (o.kind.locked <==> held != {})
            && (o.kind.locked ==> o.kind.owner in held)
  {
    assert Zeroed(w0.objs[m]);
    RunTells(w0, mvs, m, {});
  }

  /** The main context does not lock `m` here, and nobody initialises `m`
      while it is held. */
  predicate GreenOnly(w: World, mv: Move, m: nat) {
    && (w.t.current == 0 ==> mv != Call(On(m, Lock)) && mv != Call(On(m, Trylock)))
    && (mv.Call? && mv.op.Init? && mv.op.k == m && m < |w.objs| && w.objs[m].kind.Mutex? ==>
          !w.objs[m].kind.locked)
  }

  ghost predicate GreenRun(w: World, mvs: seq<Move>, m: nat)
    requires Runs(w, mvs)
    decreases |mvs|
  {
    mvs == [] || (GreenOnly(w, mvs[0], m) && GreenRun(Step(w, mvs[0]).w, mvs[1..], m))
  }

  predicate GreenOwned(o: Object) {
    o.kind.Mutex? && (o.kind.locked ==> o.kind.owner != 0)
  }

  lemma GreenStep(w: World, mv: Move, m: nat)
    requires Wf(w) && Enabled(w, mv) && m < |w.objs| && GreenOwned(w.objs[m]) && GreenOnly(w, mv, m)
    ensures m < |Step(w, mv).w.objs| && GreenOwned(Step(w, mv).w.objs[m]) && !ForeignRelease(w, mv, m)
  {
    if !Names(w, mv, m) {
      UnnamedKept(w, mv, m);
    } else {
      match mv
      case Continue => ContinueShape(w);
      case Call(op) =>
        match op
        case On(_, call) => OnShape(w, m, call);
        case CondWait(c, _) => CondWaitShape(w, c, m);
        case Init(_, count) => InitShape(w, m, count);
    }
  }

  /** A mutex that the main context never locks is never released by a thread
      that does not hold it. */
  lemma {:induction false} GreenRunSafe(w: World, mvs: seq<Move>, m: nat)
    requires Wf(w) && Runs(w, mvs) && m < |w.objs| && GreenOwned(w.objs[m]) && GreenRun(w, mvs, m)
    ensures NoForeignRelease(w, mvs, m)
    decreases |mvs|
  {
    if mvs == [] {
    } else {
      StepOk(w, mvs[0]);
      GreenStep(w, mvs[0], m);
      GreenRunSafe(Step(w, mvs[0]).w, mvs[1..], m);
    }
  }

  /** Mutual exclusion for a mutex used by green threads only: the condition is
      one that the program can see for itself. */
  lemma GreenExclusion(w0: World, mvs: seq<Move>, m: nat)
    requires Start(w0) && Runs(w0, mvs) && m < |w0.objs| && w0.objs[m].kind.Mutex? && GreenRun(w0, mvs, m)
    ensures m < |Final(w0, mvs).objs| && Final(w0, mvs).objs[m].kind.Mutex?
    ensures var o, held := Final(w0, mvs).objs[m], Holders({}, w0, mvs, m);
            && (forall a, b :: a in held && b in held ==> a == b)
            && (o.kind.locked <==> held != {})
            && (o.kind.locked ==> o.kind.owner in held)
  {
    StartWf(w0);
    assert Zeroed(w0.objs[m]);
    GreenRunSafe(w0, mvs, m);
    MutualExclusion(w0, mvs, m);
  }
}
