/** Joins of whole programs: what the main context may conclude from EBUSY. */
module Joins {
  import opened Types
  import opened Machine
  import opened Accounting
  import opened Waiting
  import opened Deadlock
  import opened Programs

  /** The scheduling loop of a join that the main context entered after any run
      `before` from the start, in any mode: it ends, and if it ends with EBUSY, and
      no harm was done on the way, the program is deadlocked exactly when no thread
      is READY. Under a sound policy that is so. */
  method JoinOrDeadlock<U(!new), S(!new)>(prog: Program<U>, ghost left: U -> nat, pick: Picker<S>,
                                          ghost inv: S -> bool, ghost w0: World, ghost before: seq<Move>,
                                          c0: Config<U>, s0: S)
    returns (status: Status, c: Config<U>, ghost mvs: seq<Move>)
    requires Start(w0) && Runs(w0, before) && Final(w0, before) == c0.w && c0.w.main.MJoin? && c0.w.t.current == 0
    requires Disciplined(prog, c0.w.objs) && Finite(prog, left) && ReadyPicker(pick, inv) && inv(s0)
    ensures Runs(w0, before + mvs) && Final(w0, before + mvs) == c.w && c.w.main == c0.w.main
    ensures c.w.main.slot < |c.w.t.threads|
    ensures status == if Terminal(c.w.t.threads[c.w.main.slot].state) then OK else EBUSY
    ensures status == EBUSY && HarmlessRun(w0, before + mvs) ==> (Deadlocked(c.w) <==> NoneReady(c.w.t.threads))
    ensures status == EBUSY && SoundPicker(pick, inv) ==> NoneReady(c.w.t.threads)
  {
    StartWf(w0);
    RunOk(w0, before);
    var s;
    ghost var last;
    status, c, s, mvs, last := RunUntil(prog, left, pick, inv, c0, s0);
    RunsConcat(w0, before, mvs);
    if status == EBUSY && HarmlessRun(w0, before + mvs) {
      GenuineDeadlock(w0, before + mvs);
    }
  }
}
