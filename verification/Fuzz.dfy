/** Schedule fuzzing: the generator's range mask, and the choice among the
    READY threads. */
module Fuzz {
  import opened Types
  import opened Threads
  import opened Scheduler
  import opened Words

  // ----- Random numbers below a bound -----

  function SmearLow(x: bv64): bv64 {
    var a := x | (x >> 1);
    var b := a | (a >> 2);
    b | (b >> 4)
  }

  function SmearHigh(c: bv64): bv64 {
    var d := c | (c >> 8);
    var e := d | (d >> 16);
    e | (e >> 32)
  }

  /** `x | x >> 1 | x >> 2 | ...`: every bit below the highest set bit is set. */
  function Smear(x: bv64): bv64 {
    SmearHigh(SmearLow(x))
  }

  /** All ones below some bit: 2^k - 1. */
  predicate AllOnes(x: bv64) {
    x & (x + 1) == 0
  }

  /** The set bits of `x` are set in `y`. */
  predicate Within(x: bv64, y: bv64) {
    x & y == x
  }

  /** No gap below a set bit. */
  predicate NoGap(z: bv64) {
    (z >> 1) & !z == 0
  }

  lemma SmearNoGap(x: bv64)
    ensures NoGap(Smear(x))
  {
  }

  lemma NoGapIsOnes(z: bv64)
    requires NoGap(z)
    ensures AllOnes(z)
  {
  }

  lemma WithinBelow(x: bv64, y: bv64)
    requires Within(x, y)
    ensures x <= y
  {
  }

  lemma WithinOnes(x: bv64, y: bv64)
    requires AllOnes(y) && x <= y
    ensures Within(x, y)
  {
  }

  lemma OrOnes(z: bv64, low: bv64, y: bv64)
    requires AllOnes(y) && z <= y && low <= z
    ensures z | low <= y
  {
    WithinOnes(z, y);
    WithinOnes(low, y);
    assert Within(z | low, y);
    WithinBelow(z | low, y);
  }

  lemma SmearAbove(x: bv64)
    ensures x <= Smear(x)
  {
    assert Within(x, Smear(x));
    WithinBelow(x, Smear(x));
  }

  lemma SmearLowBelow(x: bv64, y: bv64)
    requires AllOnes(y) && x <= y
    ensures SmearLow(x) <= y
  {
    var a := x | (x >> 1);
    OrOnes(x, x >> 1, y);
    OrOnes(a, a >> 2, y);
    OrOnes(a | (a >> 2), (a | (a >> 2)) >> 4, y);
  }

  lemma SmearHighBelow(c: bv64, y: bv64)
    requires AllOnes(y) && c <= y
    ensures SmearHigh(c) <= y
  {
    var d := c | (c >> 8);
    OrOnes(c, c >> 8, y);
    OrOnes(d, d >> 16, y);
    OrOnes(d | (d >> 16), (d | (d >> 16)) >> 32, y);
  }

  /** The smeared mask is the least number of the form 2^k - 1 that is not below
      `x`, so that a masked draw can take every value up to `x`. */
  lemma SmearLeast(x: bv64, y: bv64)
    ensures AllOnes(Smear(x)) && x <= Smear(x)
    ensures AllOnes(y) && x <= y ==> Smear(x) <= y
  {
    SmearNoGap(x);
    NoGapIsOnes(Smear(x));
    SmearAbove(x);
    if AllOnes(y) && x <= y {
      SmearLowBelow(x, y);
      SmearHighBelow(SmearLow(x), y);
    }
  }

  /** A value below the bound is what the mask makes of itself: no index is out
      of reach of a draw. */
  lemma MaskKeeps(v: bv64, max: bv64)
    requires v < max
    ensures v & Smear(max - 1) == v
  {
    SmearLeast(max - 1, 0);
    WithinOnes(v, Smear(max - 1));
  }

  function Masked(x: bv64, mask: bv64): bv64 {
    x & mask
  }

  function Percent(x: bv64): bv64 {
    x % 100
  }

  /** Draw `j` falls below `max` under `mask`. */
  predicate Accepts(draws: nat -> bv64, mask: bv64, max: bv64, j: nat) {
    Below(Masked(draws(j), mask), max)
  }

  /** Draw `n` is the first from `k` on that is accepted. */
  ghost predicate FirstAccepted(draws: nat -> bv64, mask: bv64, max: bv64, k: nat, n: nat) {
    k <= n && Accepts(draws, mask, max, n) && forall j: nat :: k <= j < n ==> !Accepts(draws, mask, max, j)
  }

  // ----- Choosing among the READY threads -----

  /** The READY slots below `n` other than `exclude`, in slot order. */
  function Others(ts: seq<Thread>, exclude: nat, n: nat): seq<nat>
    requires n <= |ts|
  {
    if n == 0 then []
    else Others(ts, exclude, n - 1) + if ts[n - 1].state == Ready && n - 1 != exclude then [n - 1] else []
  }

  /** `gth_fuzz_pick_alternative` for the drawn index `target`. */
  function Alternative(ts: seq<Thread>, exclude: nat, target: nat): nat {
    if Count(ts, Ready) <= 1 then exclude
    else
      var others := Others(ts, exclude, |ts|);
      if target < |others| then others[target] else exclude
  }

  /** Slots below `n` in ascending order, all READY and none excluded. */
  predicate ReadyList(ts: seq<Thread>, exclude: nat, s: seq<nat>, n: nat) {
    && (forall p :: 0 <= p < |s| ==> s[p] < n <= |ts| && ts[s[p]].state == Ready && s[p] != exclude)
    && (forall p, q :: 0 <= p < q < |s| ==> s[p] < s[q])
  }

  lemma ReadyListGrows(ts: seq<Thread>, exclude: nat, s: seq<nat>, n: nat)
    requires n < |ts| && ReadyList(ts, exclude, s, n) && ts[n].state == Ready && n != exclude
    ensures ReadyList(ts, exclude, s + [n], n + 1)
  {
  }

  lemma {:induction false} OthersReady(ts: seq<Thread>, exclude: nat, n: nat)
    requires n <= |ts|
    ensures ReadyList(ts, exclude, Others(ts, exclude, n), n)
    decreases n
  {
    if n == 0 {
    } else {
      OthersReady(ts, exclude, n - 1);
      if ts[n - 1].state == Ready && n - 1 != exclude {
        ReadyListGrows(ts, exclude, Others(ts, exclude, n - 1), n - 1);
      } else {
        assert Others(ts, exclude, n) == Others(ts, exclude, n - 1);
      }
    }
  }

  lemma {:induction false} OthersAll(ts: seq<Thread>, exclude: nat, n: nat, i: nat)
    requires i < n <= |ts| && ts[i].state == Ready && i != exclude
    ensures i in Others(ts, exclude, n)
    decreases n
  {
    if i == n - 1 {
      assert Others(ts, exclude, n) == Others(ts, exclude, n - 1) + [i];
    } else {
      OthersAll(ts, exclude, n - 1, i);
    }
  }

  lemma {:induction false} OthersCount(ts: seq<Thread>, exclude: nat, n: nat)
    requires n <= |ts|
    ensures |Others(ts, exclude, n)| + One(exclude < n && ts[exclude].state == Ready) == Count(ts[..n], Ready)
    decreases n
  {
    if n == 0 {
    } else {
      OthersCount(ts, exclude, n - 1);
      assert ts[..n][..n - 1] == ts[..n - 1];
    }
  }

  lemma OthersUpTo(ts: seq<Thread>, exclude: nat, n: nat)
    requires n <= |ts|
    ensures var s := Others(ts, exclude, n);
            && (forall p :: 0 <= p < |s| ==> s[p] < n && ts[s[p]].state == Ready && s[p] != exclude)
            && (forall p, q :: 0 <= p < q < |s| ==> s[p] < s[q])
            && (forall i :: 0 <= i < n && ts[i].state == Ready && i != exclude ==> i in s)
            && |s| + One(exclude < n && ts[exclude].state == Ready) == Count(ts[..n], Ready)
  {
    OthersReady(ts, exclude, n);
    OthersCount(ts, exclude, n);
    forall i | 0 <= i < n && ts[i].state == Ready && i != exclude ensures i in Others(ts, exclude, n) {
      OthersAll(ts, exclude, n, i);
    }
  }

  /** The drawn indexes below the number of READY threads correspond one to one
      to the READY threads: each pick is READY, different indexes pick different
      threads, and every READY thread has its index. The last index keeps the
      normal choice. */
  lemma AlternativeBijective(ts: seq<Thread>, exclude: nat)
    requires IsReady(ts, exclude)
    ensures forall k: nat :: k < Count(ts, Ready) ==> IsReady(ts, Alternative(ts, exclude, k))
    ensures forall j: nat, k: nat :: j < k < Count(ts, Ready) ==>
              Alternative(ts, exclude, j) != Alternative(ts, exclude, k)
    ensures forall i: nat :: IsReady(ts, i) ==>
              exists k: nat :: k < Count(ts, Ready) && Alternative(ts, exclude, k) == i
    ensures Alternative(ts, exclude, Count(ts, Ready) - 1) == exclude
  {
    var others := Others(ts, exclude, |ts|);
    OthersUpTo(ts, exclude, |ts|);
    assert ts[..|ts|] == ts;
    forall i: nat | IsReady(ts, i)
      ensures exists k: nat :: k < Count(ts, Ready) && Alternative(ts, exclude, k) == i
    {
      if i == exclude {
        assert Alternative(ts, exclude, |others|) == i;
      } else {
        var k: nat :| k < |others| && others[k] == i;
        assert Alternative(ts, exclude, k) == i;
      }
    }
  }

  const WARMUP: nat := 5

  /** `gth_fuzz_state_t`, over the numbers its generator will draw. */
  class FuzzState {
    const draws: nat -> bv64
    var drawn: nat
    var decisions: nat
    var rate: bv64

    constructor (draws: nat -> bv64, rate: bv64)
      ensures this.draws == draws && drawn == 0 && decisions == 0 && this.rate == rate
    {
      this.draws, drawn, decisions, this.rate := draws, 0, 0, rate;
    }

    /** `gth_fuzz_random_range`: the first draw that falls below `max` under
        the smeared mask; `enough` is a draw that does. */
    method RandomRange(max: bv64, ghost enough: nat) returns (r: bv64)
      requires max > 0 ==> drawn <= enough && Accepts(draws, Smear(max - 1), max, enough)
      modifies this`drawn
      ensures max == 0 ==> r == 0 && drawn == old(drawn)
      ensures max > 0 ==> Below(r, max) && drawn > old(drawn) && Drawn(Smear(max - 1), max, old(drawn), r)
    {
      if max == 0 {
        return 0;
      }
      r := Sample(Smear(max - 1), max, enough);
    }

    /** `r` is the latest draw, masked, and the first from `k` on to be accepted. */
    ghost predicate Drawn(mask: bv64, max: bv64, k: nat, r: bv64)
      reads this
    {
      drawn > 0 && r == Masked(draws(drawn - 1), mask) && FirstAccepted(draws, mask, max, k, drawn - 1)
    }

    method Sample(mask: bv64, max: bv64, ghost enough: nat) returns (r: bv64)
      requires drawn <= enough && Accepts(draws, mask, max, enough)
      modifies this`drawn
      ensures Below(r, max) && drawn > old(drawn) && Drawn(mask, max, old(drawn), r)
    {
      Reject(mask, max, enough);
      r := Masked(draws(drawn), mask);
      drawn := drawn + 1;
    }

    /** The rejection loop: skip the draws that are not below `max`. */
    method Reject(mask: bv64, max: bv64, ghost enough: nat)
      requires drawn <= enough && Accepts(draws, mask, max, enough)
      modifies this`drawn
      ensures FirstAccepted(draws, mask, max, old(drawn), drawn)
    {
      while !Accepts(draws, mask, max, drawn)
        invariant old(drawn) <= drawn <= enough
        invariant forall j: nat :: old(drawn) <= j < drawn ==> !Accepts(draws, mask, max, j)
        decreases enough - drawn
      {
        drawn := drawn + 1;
      }
    }

    /** `gth_fuzz_should_perturb`: never in the first five decisions, which draw
        nothing; then when the next draw, modulo 100, is below the rate. */
    method ShouldPerturb() returns (perturb: bool)
      modifies this`decisions, this`drawn
      ensures decisions == old(decisions) + 1
      ensures drawn == if old(decisions) >= WARMUP then old(drawn) + 1 else old(drawn)
      ensures perturb <==> old(decisions) >= WARMUP && Below(Percent(draws(old(drawn))), rate)
    {
      decisions := decisions + 1;
      if decisions <= WARMUP {
        return false;
      }
      var roll := Percent(draws(drawn));
      drawn := drawn + 1;
      perturb := Below(roll, rate);
    }

    /** Draw number `enough`, not before number `k`, can select a thread. */
    ghost predicate Enough(ts: seq<Thread>, k: nat, enough: nat) {
      |ts| <= MAX_THREADS &&
      (CountBound(ts, Ready); var ready := Count(ts, Ready);
       ready > 1 ==> k <= enough && Accepts(draws, Smear(Word(ready) - 1), Word(ready), enough))
    }

    /** What the draws from number `k` on select among the READY threads: the
        first draw that falls below their number, under the smeared mask, is the
        index of the alternative. */
    ghost predicate Selected(ts: seq<Thread>, exclude: nat, k: nat, choice: nat)
      requires |ts| <= MAX_THREADS
      reads this
    {
      CountBound(ts, Ready);
      var ready := Count(ts, Ready);
      if ready <= 1 then drawn == k && choice == exclude
      else
        var mask := Smear(Word(ready) - 1);
        && drawn > k && FirstAccepted(draws, mask, Word(ready), k, drawn - 1)
        && Below(Masked(draws(drawn - 1), mask), 256)
        && choice == Alternative(ts, exclude, Index(Masked(draws(drawn - 1), mask)))
    }

    /** What becomes of the normal choice after `d` decisions and `k` draws: on a
        low roll after the warm-up, what the draws after the roll select. */
    ghost predicate Perturbed(ts: seq<Thread>, normal: Option<nat>, d: nat, k: nat, choice: Option<nat>)
      requires |ts| <= MAX_THREADS
      reads this
    {
      if normal.Some? && d >= WARMUP && Below(Percent(draws(k)), rate)
      then choice.Some? && Selected(ts, normal.value, k + 1, choice.value)
      else choice == normal && drawn == if normal.Some? && d >= WARMUP then k + 1 else k
    }

    /** `gth_fuzz_pick_alternative`. */
    method PickAlternative(ts: seq<Thread>, exclude: nat, ghost enough: nat) returns (choice: nat)
      requires Enough(ts, drawn, enough)
      modifies this`drawn
      ensures Selected(ts, exclude, old(drawn), choice)
    {
      CountBound(ts, Ready);
      var ready := CountReady(ts);
      if ready <= 1 {
        return exclude;
      }
      WordPositive(ready);
      var r := RandomRange(Word(ready), enough);
      IndexBelow(r, ready);
      choice := Select(ts, exclude, Index(r));
    }

    /** `gth_fuzz_pick_thread`: a READY thread whenever the policy found one. */
    method PickThread(ts: seq<Thread>, normal: Option<nat>, ghost enough: nat) returns (choice: Option<nat>)
      requires SoundPick(ts, normal) && Enough(ts, drawn + 1, enough)
      modifies this`decisions, this`drawn
      ensures SoundPick(ts, choice)
      ensures decisions == old(decisions) + if normal.Some? then 1 else 0
      ensures Perturbed(ts, normal, old(decisions), old(drawn), choice)
    {
      if normal.None? {
        return None;
      }
      var perturb := ShouldPerturb();
      if !perturb {
        return normal;
      }
      var i := PickAlternative(ts, normal.value, enough);
      OthersUpTo(ts, normal.value, |ts|);
      choice := Some(i);
    }
  }

  /** `gth_fuzz_count_ready_threads`. */
  method CountReady(ts: seq<Thread>) returns (n: nat)
    ensures n == Count(ts, Ready)
  {
    n := 0;
    var i := 0;
    while i < |ts|
      invariant i <= |ts| && n == Count(ts[..i], Ready)
    {
      assert ts[..i + 1][..i] == ts[..i];
      if ts[i].state == Ready {
        n := n + 1;
      }
      i := i + 1;
    }
    assert ts[..i] == ts;
  }

  /** The selection loop of `gth_fuzz_pick_alternative`. */
  method Select(ts: seq<Thread>, exclude: nat, target: nat) returns (choice: nat)
    requires Count(ts, Ready) > 1
    ensures choice == Alternative(ts, exclude, target)
  {
    var current := 0;
    var i := 0;
    while i < |ts|
      invariant i <= |ts| && current == |Others(ts, exclude, i)| && current <= target
    {
      if ts[i].state == Ready && i != exclude {
        if current == target {
          OthersPrefix(ts, exclude, i + 1, |ts|);
          return i;
        }
        current := current + 1;
      }
      i := i + 1;
    }
    choice := exclude;
  }

  /** Drawing the word `r` below the number of READY threads selects thread `i`. */
  predicate Draws(ts: seq<Thread>, exclude: nat, r: bv64, i: nat)
    requires Count(ts, Ready) < 256
  {
    Below(r, Word(Count(ts, Ready))) && Below(r, 256) && Alternative(ts, exclude, Index(r)) == i
  }

  /** Fuzzing is unbiased by construction. Every READY thread has a word, which a
      masked draw can take by `MaskKeeps`, */
  lemma DrawExists(ts: seq<Thread>, exclude: nat, i: nat) returns (r: bv64)
    requires IsReady(ts, exclude) && IsReady(ts, i) && Count(ts, Ready) < 256
    ensures Draws(ts, exclude, r, i)
  {
    AlternativeBijective(ts, exclude);
    var k: nat :| k < Count(ts, Ready) && Alternative(ts, exclude, k) == i;
    r := Word(k);
    IndexWord(k);
    WordBelow(k, Count(ts, Ready));
  }

  /** and has no other word. */
  lemma DrawUnique(ts: seq<Thread>, exclude: nat, q: bv64, r: bv64, i: nat)
    requires IsReady(ts, exclude) && Count(ts, Ready) < 256
    requires Draws(ts, exclude, q, i) && Draws(ts, exclude, r, i)
    ensures q == r
  {
    IndexBelow(q, Count(ts, Ready));
    IndexBelow(r, Count(ts, Ready));
    SameIndex(ts, exclude, Index(q), Index(r));
    WordIndex(q);
    WordIndex(r);
  }

  lemma SameIndex(ts: seq<Thread>, exclude: nat, j: nat, k: nat)
    requires IsReady(ts, exclude) && j < Count(ts, Ready) && k < Count(ts, Ready)
    requires Alternative(ts, exclude, j) == Alternative(ts, exclude, k)
    ensures j == k
  {
    AlternativeBijective(ts, exclude);
  }

  lemma {:induction false} OthersPrefix(ts: seq<Thread>, exclude: nat, n: nat, m: nat)
    requires n <= m <= |ts|
    ensures Others(ts, exclude, n) <= Others(ts, exclude, m)
    decreases m - n
  {
    if n == m {
    } else {
      OthersPrefix(ts, exclude, n, m - 1);
    }
  }
}
