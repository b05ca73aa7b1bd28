/** Paths of any step function. What is proved of them here need not look into the
    step of the runtime. */
module Paths {

  ghost predicate Path<W, M>(ok: (W, M) -> bool, step: (W, M) -> W, w: W, ms: seq<M>)
    decreases |ms|
  {
    ms == [] || (ok(w, ms[0]) && Path(ok, step, step(w, ms[0]), ms[1..]))
  }

  ghost function PathEnd<W, M>(step: (W, M) -> W, w: W, ms: seq<M>): W
    decreases |ms|
  {
    if ms == [] then w else PathEnd(step, step(w, ms[0]), ms[1..])
  }

  lemma {:induction false} PathConcat<W, M>(ok: (W, M) -> bool, step: (W, M) -> W, w: W, a: seq<M>, b: seq<M>)
    ensures Path(ok, step, w, a + b) <==> Path(ok, step, w, a) && Path(ok, step, PathEnd(step, w, a), b)
    ensures PathEnd(step, w, a + b) == PathEnd(step, PathEnd(step, w, a), b)
    decreases |a|
  {
    if a == [] {
      assert a + b == b;
    } else {
      assert (a + b)[1..] == a[1..] + b;
      PathConcat(ok, step, step(w, a[0]), a[1..], b);
    }
  }
}
