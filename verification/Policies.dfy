/** The scheduling modes as policies of a recorded run: round robin, priority,
    and either of them under fuzzing. */
module Policies {
  import opened Types
  import opened Machine
  import opened Accounting
  import opened Scheduler
  import opened Threads
  import opened Fuzz
  import opened Words
  import opened Programs

  /** The scheduler keeps the last round-robin slot. */
  function PolicyPicker(policy: Policy): Picker<nat> {
    (ts: seq<Thread>, last: nat) =>
      if ts == [] then (None, last)
      else
        var c := PickReady(policy, ts, last);
        (c, if policy == RR && c.Some? then c.value else last)
  }

  predicate SlotNumber(last: nat) {
    last < MAX_THREADS
  }

  lemma PolicySound(policy: Policy)
    ensures SoundPicker(PolicyPicker(policy), SlotNumber) && ReadyPicker(PolicyPicker(policy), SlotNumber)
  {
    forall ts: seq<Thread>, last | |ts| == MAX_THREADS && SlotNumber(last)
      ensures SoundPick(ts, PolicyPicker(policy)(ts, last).0) && SlotNumber(PolicyPicker(policy)(ts, last).1)
    {
      PickReadySound(policy, ts, last);
    }
    SoundIsReady(PolicyPicker(policy), SlotNumber);
  }

  /** A run scheduled by the round-robin policy is a round-robin run. */
  lemma {:induction false} PolicyRuns(w: World, last: nat, mvs: seq<Move>, end: nat)
    requires Wf(w) && Runs(w, mvs) && PickedBy(PolicyPicker(RR), w, last, mvs, end)
    ensures RoundRobinRun(w, last, mvs)
    decreases |mvs|
  {
    if mvs == [] {
    } else {
      StepOk(w, mvs[0]);
      PolicyRuns(Step(w, mvs[0]).w, LastPick(last, mvs[0]), mvs[1..], end);
    }
  }

  /** So the bypass of a READY thread is bounded whenever the scheduler runs under
      that policy, for instance in the loop of a join. */
  lemma PolicyFair(w: World, last: nat, mvs: seq<Move>, end: nat, k: nat)
    requires Wf(w) && Runs(w, mvs) && SlotNumber(last) && PickedBy(PolicyPicker(RR), w, last, mvs, end)
    requires IsReady(w.t.threads, k) && NeverCancels(mvs, w.t.threads[k].tid) && k !in Picks(mvs)
    ensures |Picks(mvs)| < MAX_THREADS
    ensures forall i, j :: 0 <= i < j < |Picks(mvs)| ==> Picks(mvs)[i] != Picks(mvs)[j]
  {
    PolicyRuns(w, last, mvs, end);
    RoundRobinFair(w, last, mvs, k);
  }

  /** A fuzzed policy: decision number `s.1` keeps the normal choice (`None`) or
      replaces it by the alternative with the drawn index. */
  function FuzzPick(policy: Policy, decide: nat -> Option<nat>, ts: seq<Thread>, s: (nat, nat))
    : (Option<nat>, (nat, nat))
  {
    var (normal, last) := PolicyPicker(policy)(ts, s.0);
    if normal.None? then (None, (last, s.1))
    else
      (Some(match decide(s.1)
            case None => normal.value
            case Some(target) => Alternative(ts, normal.value, target)),
       (last, s.1 + 1))
  }

  function FuzzPicker(policy: Policy, decide: nat -> Option<nat>): Picker<(nat, nat)> {
    (ts: seq<Thread>, s: (nat, nat)) => FuzzPick(policy, decide, ts, s)
  }

  predicate FuzzOk(s: (nat, nat)) {
    SlotNumber(s.0)
  }

  /** Whatever the dice say, fuzzing still picks a READY thread if there is one. */
  lemma FuzzSound(policy: Policy, decide: nat -> Option<nat>)
    ensures SoundPicker(FuzzPicker(policy, decide), FuzzOk) && ReadyPicker(FuzzPicker(policy, decide), FuzzOk)
  {
    PolicySound(policy);
    forall ts: seq<Thread>, s | |ts| == MAX_THREADS && FuzzOk(s)
      ensures SoundPick(ts, FuzzPicker(policy, decide)(ts, s).0) && FuzzOk(FuzzPicker(policy, decide)(ts, s).1)
    {
      var (normal, last) := PolicyPicker(policy)(ts, s.0);
      assert SoundPick(ts, normal) && SlotNumber(last);
      if normal.Some? { OthersUpTo(ts, normal.value, |ts|); }
    }
    SoundIsReady(FuzzPicker(policy, decide), FuzzOk);
  }

  /** Whatever the fuzzer makes of the normal choice is what `FuzzPick` makes of it
      under some decisions. */
  lemma PerturbedIsPick(fuzz: FuzzState, policy: Policy, ts: seq<Thread>, last: nat, d: nat, k: nat, n: nat,
                        choice: Option<nat>)
    returns (decide: nat -> Option<nat>)
    requires |ts| <= MAX_THREADS && fuzz.Perturbed(ts, PolicyPicker(policy)(ts, last).0, d, k, choice)
    ensures FuzzPick(policy, decide, ts, (last, n)).0 == choice
  {
    var normal := PolicyPicker(policy)(ts, last).0;
    if choice == normal {
      decide := _ => None;
    } else {
      var target := SelectedIndex(fuzz, ts, normal.value, k + 1, choice.value);
      decide := _ => Some(target);
    }
  }

  lemma SelectedIndex(fuzz: FuzzState, ts: seq<Thread>, exclude: nat, k: nat, choice: nat) returns (target: nat)
    requires |ts| <= MAX_THREADS && fuzz.Selected(ts, exclude, k, choice)
    ensures choice == Alternative(ts, exclude, target)
  {
    if Count(ts, Ready) <= 1 {
      target := 0;
    } else {
      CountBound(ts, Ready);
      target := Index(Masked(fuzz.draws(fuzz.drawn - 1), Smear(Word(Count(ts, Ready)) - 1)));
    }
  }
}
