/** The ring buffer behind every mutex, semaphore and condition variable, proved
    against the sequence of waiting slots that it stands for. */
module WaitQueues {
  import opened Types
  import opened Sync
  import opened Modulo

  /** The array index of the `i`-th waiter: `(head + i) % cap`. */
  function Place(head: nat, i: nat, cap: nat): nat {
    if head + i < cap then head + i else head + i - cap
  }

  lemma PlaceIsMod(head: nat, i: nat, cap: nat)
    requires head < cap && i <= cap
    ensures (head + i) % cap == Place(head, i, cap)
  {
    ModOnce(head + i, cap);
  }

  lemma {:induction false} RemoveFirstAt(s: seq<nat>, x: nat, i: nat)
    requires i < |s| && s[i] == x && forall j :: 0 <= j < i ==> s[j] != x
    ensures RemoveFirst(s, x) == s[..i] + s[i + 1..]
    decreases i
  {
    if i == 0 {
    } else {
      RemoveFirstAt(s[1..], x, i - 1);
      assert s[1..][..i - 1] == s[1..i] && s[1..][i..] == s[i + 1..];
      assert [s[0]] + s[1..i] == s[..i];
    }
  }

  lemma {:induction false} RemoveFirstAbsent(s: seq<nat>, x: nat)
    requires x !in s
    ensures RemoveFirst(s, x) == s
    decreases |s|
  {
    if s == [] {
    } else {
      RemoveFirstAbsent(s[1..], x);
    }
  }

  class WaitQueue {
    const slots: array<nat>
    var head: nat
    var tail: nat
    var count: nat
    var capacity: nat
    /** The waiting slots, longest waiter first. */
    ghost var contents: seq<nat>

    ghost predicate Valid()
      reads this, slots
    {
      && slots.Length == WAIT_QUEUE_SLOTS && count == |contents| <= capacity <= WAIT_QUEUE_SLOTS
      && head <= capacity && (capacity > 0 ==> head < capacity && tail == Place(head, count, capacity))
      && (forall i :: 0 <= i < count ==> slots[Place(head, i, capacity)] == contents[i])
      && (forall i :: 0 <= i < count ==> contents[i] < MAX_THREADS)
    }

    /** The index arithmetic of the source. */
    lemma TailIsMod()
      requires Valid() && capacity > 0
      ensures tail == (head + count) % capacity
    {
      PlaceIsMod(head, count, capacity);
    }

    ghost function Value(): Queue
      reads this
    {
      Queue(capacity, contents)
    }

    /** A zeroed queue: no room for anybody. */
    constructor ()
      ensures Valid() && Value() == ZERO_QUEUE && fresh(slots)
    {
      slots := new nat[WAIT_QUEUE_SLOTS](_ => 0);
      head, tail, count, capacity, contents := 0, 0, 0, 0, [];
    }

    method Init(cap: nat)
      requires slots.Length == WAIT_QUEUE_SLOTS && cap <= WAIT_QUEUE_SLOTS
      modifies this
      ensures Valid() && Value() == Queue(cap, [])
    {
      head, tail, count, capacity, contents := 0, 0, 0, cap, [];
    }

    method IsEmpty() returns (b: bool)
      requires Valid()
      ensures b <==> contents == []
    {
      b := count == 0;
    }

    method IsFull() returns (b: bool)
      requires Valid()
      ensures b <==> Full(Value())
    {
      b := count >= capacity;
    }

    /** A full queue drops the newcomer. */
    method Enqueue(x: nat)
      requires Valid() && x < MAX_THREADS
      modifies this, slots
      ensures Valid() && Value() == Push(old(Value()), x)
    {
      if count >= capacity {
        return;
      }
      PlaceIsMod(tail, 1, capacity);
      slots[tail] := x;
      tail := (tail + 1) % capacity;
      count := count + 1;
      contents := contents + [x];
    }

    method Dequeue() returns (x: nat)
      requires Valid()
      modifies this
      ensures Valid()
      ensures old(contents) == [] ==> x == NO_SLOT && Value() == old(Value())
      ensures old(contents) != [] ==> x == old(contents)[0] != NO_SLOT && Value() == Pop(old(Value()))
    {
      if count == 0 {
        return NO_SLOT;
      }
      assert contents[0] == slots[Place(head, 0, capacity)];
      x := slots[head];
      PlaceIsMod(head, 1, capacity);
      head := (head + 1) % capacity;
      count := count - 1;
      contents := contents[1..];
    }

    /** Delete the first occurrence of `x`; used when a condition wait is rolled
        back. */
    method Remove(x: nat) returns (removed: bool)
      requires Valid()
      modifies this, slots
      ensures Valid() && capacity == old(capacity)
      ensures contents == RemoveFirst(old(contents), x) && (removed <==> x in old(contents))
    {
      var i := 0;
      while i < count
        invariant Valid() && contents == old(contents) && capacity == old(capacity)
        invariant i <= count && forall j :: 0 <= j < i ==> contents[j] != x
      {
        PlaceIsMod(head, i, capacity);
        if slots[(head + i) % capacity] == x {
          RemoveFirstAt(contents, x, i);
          CloseGap(i);
          return true;
        }
        i := i + 1;
      }
      RemoveFirstAbsent(contents, x);
      removed := false;
    }

    /** Take position `i` out of the ring. */
    method CloseGap(i: nat)
      requires Valid() && i < count
      modifies this, slots
      ensures Valid() && capacity == old(capacity) && contents == old(contents[..i] + contents[i + 1..])
    {
      ShiftDown(i);
      PlaceIsMod(tail, capacity - 1, capacity);
      GapClosed(slots[..], head, capacity, contents, i);
      tail := (tail + capacity - 1) % capacity;
      count := count - 1;
      contents := contents[..i] + contents[i + 1..];
    }

    /** Shift the waiters behind position `i` one place forward. */
    method ShiftDown(i: nat)
      requires Valid() && i < count
      modifies slots
      ensures Shifted(slots[..], head, capacity, contents, i, count - 1)
    {
      var j := i;
      while j + 1 < count
        invariant i <= j < count && Shifted(slots[..], head, capacity, contents, i, j)
      {
        ShiftOne(slots[..], head, capacity, contents, i, j);
        MoveForward(j);
        j := j + 1;
      }
    }

    method MoveForward(j: nat)
      requires slots.Length == WAIT_QUEUE_SLOTS && head < capacity <= WAIT_QUEUE_SLOTS && j + 1 < capacity
      modifies slots
      ensures var ring := old(slots[..]);
              slots[..] == ring[Place(head, j, capacity) := ring[Place(head, j + 1, capacity)]]
    {
      PlaceIsMod(head, j, capacity);
      PlaceIsMod(head, j + 1, capacity);
      var cur, next := (head + j) % capacity, (head + j + 1) % capacity;
      slots[cur] := slots[next];
    }
  }

  /** The waiters from `i` up to `j` have been shifted one place forward. */
  predicate Shifted(ring: seq<nat>, head: nat, cap: nat, contents: seq<nat>, i: nat, j: nat)
    requires head < cap <= |ring| && |contents| <= cap && i <= j < |contents|
  {
    && (forall k :: 0 <= k < i ==> ring[Place(head, k, cap)] == contents[k])
    && (forall k :: i <= k < j ==> ring[Place(head, k, cap)] == contents[k + 1])
    && (forall k :: j < k < |contents| ==> ring[Place(head, k, cap)] == contents[k])
  }

  lemma ShiftOne(ring: seq<nat>, head: nat, cap: nat, contents: seq<nat>, i: nat, j: nat)
    requires head < cap <= |ring| && |contents| <= cap && i <= j < |contents| - 1
    requires Shifted(ring, head, cap, contents, i, j)
    ensures Shifted(ring[Place(head, j, cap) := ring[Place(head, j + 1, cap)]], head, cap, contents, i, j + 1)
  {
    assert ring[Place(head, j + 1, cap)] == contents[j + 1];
  }

  /** The ring after the shift, seen as the contents without position `i`. */
  lemma GapClosed(ring: seq<nat>, head: nat, cap: nat, contents: seq<nat>, i: nat)
    requires head < cap <= |ring| && i < |contents| <= cap
    requires Shifted(ring, head, cap, contents, i, |contents| - 1)
    ensures var rest := contents[..i] + contents[i + 1..];
            forall k :: 0 <= k < |rest| ==> ring[Place(head, k, cap)] == rest[k]
  {
  }
}
