/** Which READY thread runs next: round robin and priority, and the fairness of
    round robin over whole runs. */
module Scheduler {
  import opened Types
  import opened Threads
  import opened Modulo
  import opened Machine
  import opened Accounting
  import opened Identity
  import opened Deadlock

  predicate IsReady(ts: seq<Thread>, i: nat) {
    i < |ts| && ts[i].state == Ready
  }

  /** What every policy promises: a READY slot if there is one. */
  predicate SoundPick(ts: seq<Thread>, choice: Option<nat>) {
    match choice
    case Some(i) => IsReady(ts, i)
    case None => NoneReady(ts)
  }

  // ----- Round robin -----

  /** The slot `i` places after `last`, cyclically. */
  function After(last: nat, i: nat, n: nat): nat
    requires n > 0
  {
    ((last + 1) % n + i) % n
  }

  /** How many places slot `k` comes after `last`, cyclically. */
  function Distance(last: nat, k: nat, n: nat): nat
    requires last < n && k < n
  {
    if k > last then k - last - 1 else k + n - last - 1
  }

  lemma AfterIs(last: nat, i: nat, n: nat)
    requires last < n && i < n
    ensures After(last, i, n) == if last + 1 + i < n then last + 1 + i else last + 1 + i - n
  {
    ModOnce(last + 1, n);
    ModOnce((last + 1) % n + i, n);
  }

  lemma AfterDistance(last: nat, k: nat, n: nat)
    requires last < n && k < n
    ensures Distance(last, k, n) < n && After(last, Distance(last, k, n), n) == k
  {
    AfterIs(last, Distance(last, k, n), n);
  }

  lemma DistanceAfter(last: nat, i: nat, n: nat)
    requires last < n && i < n
    ensures After(last, i, n) < n && Distance(last, After(last, i, n), n) == i
  {
    AfterIs(last, i, n);
  }

  function RoundRobinFrom(ts: seq<Thread>, last: nat, i: nat): Option<nat>
    requires i <= |ts| && |ts| > 0
    decreases |ts| - i
  {
    if i == |ts| then None
    else if IsReady(ts, After(last, i, |ts|)) then Some(After(last, i, |ts|))
    else RoundRobinFrom(ts, last, i + 1)
  }

  function RoundRobin(ts: seq<Thread>, last: nat): Option<nat>
    requires |ts| > 0
  {
    RoundRobinFrom(ts, last, 0)
  }

  /** No READY slot is at a distance below `i`. */
  predicate NoneCloser(ts: seq<Thread>, last: nat, i: nat)
    requires last < |ts|
  {
    forall k :: 0 <= k < |ts| && Distance(last, k, |ts|) < i ==> ts[k].state != Ready
  }

  /** The pick is READY and at the least distance, or nothing is READY. */
  predicate Nearest(ts: seq<Thread>, last: nat, c: Option<nat>)
    requires last < |ts|
  {
    && SoundPick(ts, c)
    && (c.Some? ==> forall k :: 0 <= k < |ts| && ts[k].state == Ready ==>
          Distance(last, c.value, |ts|) <= Distance(last, k, |ts|))
  }

  lemma NoneCloserNext(ts: seq<Thread>, last: nat, i: nat)
    requires last < |ts| && i < |ts| && NoneCloser(ts, last, i) && !IsReady(ts, After(last, i, |ts|))
    ensures NoneCloser(ts, last, i + 1)
  {
    forall k | 0 <= k < |ts| && Distance(last, k, |ts|) < i + 1 ensures ts[k].state != Ready {
      AfterDistance(last, k, |ts|);
    }
  }

  lemma NearestFound(ts: seq<Thread>, last: nat, i: nat)
    requires last < |ts| && i < |ts| && NoneCloser(ts, last, i) && IsReady(ts, After(last, i, |ts|))
    ensures Nearest(ts, last, Some(After(last, i, |ts|)))
  {
    DistanceAfter(last, i, |ts|);
  }

  lemma NearestNone(ts: seq<Thread>, last: nat)
    requires last < |ts| && NoneCloser(ts, last, |ts|)
    ensures Nearest(ts, last, None)
  {
    forall k | 0 <= k < |ts| ensures ts[k].state != Ready { AfterDistance(last, k, |ts|); }
  }

  lemma {:induction false} RoundRobinFromNearest(ts: seq<Thread>, last: nat, i: nat)
    requires i <= |ts| && last < |ts| && NoneCloser(ts, last, i)
    ensures Nearest(ts, last, RoundRobinFrom(ts, last, i))
    decreases |ts| - i
  {
    if i == |ts| {
      NearestNone(ts, last);
    } else if IsReady(ts, After(last, i, |ts|)) {
      NearestFound(ts, last, i);
    } else {
      NoneCloserNext(ts, last, i);
      RoundRobinFromNearest(ts, last, i + 1);
    }
  }

  /** Round robin picks the READY slot that comes first after the last pick. */
  lemma RoundRobinNearest(ts: seq<Thread>, last: nat)
    requires last < |ts|
    ensures Nearest(ts, last, RoundRobin(ts, last))
  {
    RoundRobinFromNearest(ts, last, 0);
  }

  /** Passing over a READY slot `k` brings the scheduler closer to it. */
  lemma RoundRobinCloser(ts: seq<Thread>, last: nat, k: nat)
    requires last < |ts| && IsReady(ts, k) && RoundRobin(ts, last) != Some(k)
    ensures var c := RoundRobin(ts, last);
            && c.Some? && c.value < |ts| && Distance(c.value, k, |ts|) < Distance(last, k, |ts|)
  {
    RoundRobinNearest(ts, last);
  }

  /** A run in which every scheduling decision is made by round robin; `last` is
      `last_rr_slot`. */
  predicate RoundRobinRun(w: World, last: nat, mvs: seq<Move>)
    requires Runs(w, mvs)
    decreases |mvs|
  {
    mvs == [] ||
    (&& |w.t.threads| > 0
     && (mvs[0].Sched? ==> mvs[0].choice == RoundRobin(w.t.threads, last))
     && RoundRobinRun(Step(w, mvs[0]).w, LastPick(last, mvs[0]), mvs[1..]))
  }

  function LastPick(last: nat, mv: Move): nat {
    if mv.Sched? && mv.choice.Some? then mv.choice.value else last
  }

  function Picks(mvs: seq<Move>): seq<nat> {
    if mvs == [] then []
    else (if mvs[0].Sched? && mvs[0].choice.Some? then [mvs[0].choice.value] else []) + Picks(mvs[1..])
  }

  predicate NeverCancels(mvs: seq<Move>, tid: nat) {
    forall i :: 0 <= i < |mvs| ==> mvs[i] != Call(Cancel(tid))
  }

  /** One move that passes over the READY slot `k`. */
  lemma PassedOver(w: World, last: nat, mv: Move, k: nat)
    requires Wf(w) && Enabled(w, mv) && last < MAX_THREADS && IsReady(w.t.threads, k)
    requires mv.Sched? ==> mv.choice == RoundRobin(w.t.threads, last)
    requires mv != Sched(Some(k)) && mv != Call(Cancel(w.t.threads[k].tid))
    ensures var u := Step(w, mv).w;
            && Wf(u) && IsReady(u.t.threads, k) && u.t.threads[k].tid == w.t.threads[k].tid
            && LastPick(last, mv) < MAX_THREADS
            && Distance(LastPick(last, mv), k, MAX_THREADS) + One(mv.Sched?) <= Distance(last, k, MAX_THREADS)
            && (mv.Sched? ==> mv.choice.Some?)
  {
    StepOk(w, mv);
    if mv.Sched? { RoundRobinCloser(w.t.threads, last, k); }
    ReadyStays(w, mv, k);
  }

  /** Picks that come closer to slot `k`, starting behind slot `last`: they are
      few and all different. */
  predicate Approach(picks: seq<nat>, last: nat, k: nat)
    requires last < MAX_THREADS && k < MAX_THREADS
  {
    && |picks| <= Distance(last, k, MAX_THREADS)
    && (forall i, j :: 0 <= i < j < |picks| ==> picks[i] != picks[j])
    && (forall i :: 0 <= i < |picks| ==>
          picks[i] < MAX_THREADS && Distance(picks[i], k, MAX_THREADS) < Distance(last, k, MAX_THREADS))
  }

  lemma ApproachCons(p: nat, picks: seq<nat>, last: nat, k: nat)
    requires last < MAX_THREADS && k < MAX_THREADS && p < MAX_THREADS && Approach(picks, p, k)
    requires Distance(p, k, MAX_THREADS) < Distance(last, k, MAX_THREADS)
    ensures Approach([p] + picks, last, k)
  {
  }

  lemma {:induction false} PicksApproach(w: World, last: nat, mvs: seq<Move>, k: nat)
    requires Wf(w) && Runs(w, mvs) && last < MAX_THREADS && RoundRobinRun(w, last, mvs)
    requires IsReady(w.t.threads, k) && NeverCancels(mvs, w.t.threads[k].tid) && k !in Picks(mvs)
    ensures Approach(Picks(mvs), last, k)
    decreases |mvs|
  {
    if mvs == [] {
    } else {
      assert mvs[0] != Sched(Some(k)) && mvs[0] != Call(Cancel(w.t.threads[k].tid));
      PassedOver(w, last, mvs[0], k);
      PicksApproach(Step(w, mvs[0]).w, LastPick(last, mvs[0]), mvs[1..], k);
      if mvs[0].Sched? {
        ApproachCons(mvs[0].choice.value, Picks(mvs[1..]), last, k);
      } else {
        assert Picks(mvs) == Picks(mvs[1..]);
      }
    }
  }

  /** Bounded bypass: a READY thread that nobody cancels is picked within 128
      picks, and before that no other slot is picked twice. */
  lemma RoundRobinFair(w: World, last: nat, mvs: seq<Move>, k: nat)
    requires Wf(w) && Runs(w, mvs) && last < MAX_THREADS && RoundRobinRun(w, last, mvs)
    requires IsReady(w.t.threads, k) && NeverCancels(mvs, w.t.threads[k].tid) && k !in Picks(mvs)
    ensures |Picks(mvs)| <= Distance(last, k, MAX_THREADS) < MAX_THREADS
    ensures forall i, j :: 0 <= i < j < |Picks(mvs)| ==> Picks(mvs)[i] != Picks(mvs)[j]
    ensures forall i :: 0 <= i < |Picks(mvs)| ==>
              Picks(mvs)[i] < MAX_THREADS && Distance(Picks(mvs)[i], k, MAX_THREADS) < Distance(last, k, MAX_THREADS)
  {
    PicksApproach(w, last, mvs, k);
  }

  // ----- Priority -----

  /** Thread `a` goes before thread `b`. */
  predicate Outranks(a: Thread, b: Thread) {
    a.priority > b.priority || (a.priority == b.priority && a.tid <= b.tid)
  }

  function BestUpTo(ts: seq<Thread>, n: nat): Option<nat>
    requires n <= |ts|
    ensures BestUpTo(ts, n).Some? ==> BestUpTo(ts, n).value < n
  {
    if n == 0 then None
    else
      var b := BestUpTo(ts, n - 1);
      if ts[n - 1].state != Ready then b
      else if b.None? then Some(n - 1)
      else if ts[n - 1].priority > ts[b.value].priority then Some(n - 1)
      else if ts[n - 1].priority == ts[b.value].priority && ts[n - 1].tid < ts[b.value].tid then Some(n - 1)
      else b
  }

  lemma {:induction false} BestUpToBest(ts: seq<Thread>, n: nat)
    requires n <= |ts|
    ensures match BestUpTo(ts, n)
            case Some(b) => IsReady(ts, b) && forall i :: 0 <= i < n && ts[i].state == Ready ==> Outranks(ts[b], ts[i])
            case None => forall i :: 0 <= i < n ==> ts[i].state != Ready
  {
    if n == 0 {
    } else {
      BestUpToBest(ts, n - 1);
    }
  }

  function ByPriority(ts: seq<Thread>): Option<nat> {
    BestUpTo(ts, |ts|)
  }

  datatype Policy = RR | PRIORITY

  function PickReady(policy: Policy, ts: seq<Thread>, last: nat): Option<nat>
    requires |ts| > 0
  {
    if policy == RR then RoundRobin(ts, last) else ByPriority(ts)
  }

  lemma PickReadySound(policy: Policy, ts: seq<Thread>, last: nat)
    requires last < |ts|
    ensures SoundPick(ts, PickReady(policy, ts, last))
  {
    RoundRobinNearest(ts, last);
    BestUpToBest(ts, |ts|);
  }
}
