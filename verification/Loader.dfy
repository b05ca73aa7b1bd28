/** Loading a trace file and driving the scheduler from it; and the end-to-end
    theorem from recording through the file to the replayed run. */
module Loader {
  import opened Types
  import opened Threads
  import opened TraceFormat
  import opened Recorder
  import opened Programs
  import opened Replay

  const MAX_FILE_SIZE: nat := 256 * 1024 * 1024

  /** `gth_replay_validate_header`, on a file that has room for a header. */
  method ValidateHeader(data: seq<Byte>) returns (ok: bool)
    ensures ok <==> ValidHeader(data)
  {
    if |data| < 32 {
      return false;
    }
    if FromBytes(data[0..4]) != 0x3252_5447 {
      return false;
    }
    ok := FromBytes(data[4..8]) == 2;
  }

  /** `gth_replay_count_records`: 0 unless the header and every record check. */
  method CountRecords(data: seq<Byte>) returns (n: nat)
    ensures n == if ValidHeader(data) && AllRecordsValid(data) then RecordRoom(data) else 0
  {
    var ok := ValidateHeader(data);
    if !ok {
      return 0;
    }
    var room := RecordRoom(data);
    var i := 0;
    while i < room
      invariant i <= room && room == RecordRoom(data)
      invariant HEADER_SIZE + RECORD_SIZE * room <= |data| && HEADER_SIZE + RECORD_SIZE * i <= |data|
      invariant AllValid(data, i)
    {
      ok := ValidateRecord(RecordBytes(data, i));
      if !ok {
        return 0;
      }
      i := i + 1;
    }
    n := room;
  }

  ghost predicate AllRecordsValid(data: seq<Byte>) {
    |data| >= HEADER_SIZE && AllValid(data, RecordRoom(data))
  }

  /** What `gth_replay_init` says about the bytes of a file. */
  ghost function LoadStatus(data: seq<Byte>): Status {
    if |data| < HEADER_SIZE || |data| > MAX_FILE_SIZE then ENOTFOUND
    else if ValidHeader(data) && AllRecordsValid(data) && RecordRoom(data) > 0 then OK
    else ESTATE
  }

  /** `gth_replay_state_t`. */
  class ReplayState {
    const events: seq<Byte>
    const eventCount: nat
    var currentIdx: nat
    var diverged: bool
    var lastTimestamp: nat

    ghost predicate Valid()
      reads this
    {
      HEADER_SIZE + RECORD_SIZE * eventCount <= |events| && currentIdx <= eventCount
    }

    /** The loaded records. */
    ghost function Trace(): (rs: seq<Record>)
      requires Valid()
      reads this
      ensures |rs| == eventCount
    {
      Records(events, eventCount)
    }

    ghost function Position(): Cursor
      reads this
    {
      Cursor(currentIdx, diverged)
    }

    constructor (events: seq<Byte>, eventCount: nat)
      requires HEADER_SIZE + RECORD_SIZE * eventCount <= |events|
      ensures Valid() && Position() == Cursor(0, false) && this.events == events && this.eventCount == eventCount
    {
      this.events, this.eventCount := events, eventCount;
      currentIdx, diverged, lastTimestamp := 0, false, 0;
    }

    method PeekEvent() returns (r: Option<Record>)
      requires Valid()
      ensures r == if currentIdx < eventCount then Some(Trace()[currentIdx]) else None
    {
      if currentIdx >= eventCount {
        return None;
      }
      RecordsAt(events, eventCount, currentIdx);
      r := Some(Decode(RecordBytes(events, currentIdx)));
    }

    method NextEvent() returns (r: Option<Record>)
      requires Valid()
      modifies this
      ensures Valid() && diverged == old(diverged)
      ensures r == if old(currentIdx) < eventCount then Some(Trace()[old(currentIdx)]) else None
      ensures currentIdx == if r.Some? then old(currentIdx) + 1 else old(currentIdx)
      ensures lastTimestamp == if r.Some? then r.value.timestamp else old(lastTimestamp)
    {
      r := PeekEvent();
      if r.Some? {
        lastTimestamp := r.value.timestamp;
        currentIdx := currentIdx + 1;
      }
    }

    /** `gth_replay_next_thread`: the skip loop ends at the next switch record. */
    method NextThread(ts: seq<Thread>) returns (choice: Option<nat>)
      requires Valid()
      modifies this
      ensures Valid() && (choice, Position()) == ReplayPick(Trace(), old(Position()), ts)
    {
      var r := PeekEvent();
      while r.Some? && r.value.kind != EVT_CONTEXT_SWITCH
        invariant Valid() && diverged == old(diverged) && old(currentIdx) <= currentIdx
        invariant r == if currentIdx < eventCount then Some(Trace()[currentIdx]) else None
        invariant SkipTo(Trace(), old(currentIdx)) == SkipTo(Trace(), currentIdx)
        decreases eventCount - currentIdx
      {
        var skipped := NextEvent();
        r := PeekEvent();
      }
      if r.None? {
        return None;
      }
      choice := FindRunnable(ts, TargetOf(r.value));
      if choice.None? {
        diverged := true;
        return;
      }
      var consumed := NextEvent();
    }
  }

  /** `gth_replay_find_thread`: a live thread with the tid, if it can run. */
  method FindRunnable(ts: seq<Thread>, tid: nat) returns (found: Option<nat>)
    ensures found == ReplayFind(ts, tid)
  {
    if tid == 0 {
      return None;
    }
    var i := FindSlot(ts, tid);
    if i == |ts| {
      return None;
    }
    if ts[i].state != Ready && ts[i].state != Running {
      return None;
    }
    found := Some(i);
  }

  /** `gth_replay_init`: `content` is what reading the file at `path` gave, if it
      could be read, `busy` says that a replay is under way, and `allocOk` that
      there is memory for the replay state. */
  method Load(path: string, busy: bool, content: Option<seq<Byte>>, allocOk: bool)
    returns (status: Status, st: ReplayState?)
    ensures status == OK <==> st != null
    ensures status == if path == [] then EINVAL
                      else if busy then ESTATE
                      else if content.None? then ENOTFOUND
                      else if LoadStatus(content.value) == OK && !allocOk then ENOMEM
                      else LoadStatus(content.value)
    ensures st != null ==>
              && fresh(st) && st.Valid() && st.Position() == Cursor(0, false)
              && content == Some(st.events) && st.eventCount == RecordRoom(st.events)
  {
    if path == [] {
      return EINVAL, null;
    }
    if busy {
      return ESTATE, null;
    }
    if content.None? {
      return ENOTFOUND, null;
    }
    var data := content.value;
    if |data| < HEADER_SIZE || |data| > MAX_FILE_SIZE {
      return ENOTFOUND, null;
    }
    var n := CountRecords(data);
    if n == 0 {
      return ESTATE, null;
    }
    if !allocOk {
      return ENOMEM, null;
    }
    status := OK;
    st := new ReplayState(data, n);
  }

  // ----- From the recorder to the replay -----

  /** The records of a session: initialisation, the events, shutdown. */
  ghost predicate SessionRecords(rs: seq<Record>, events: seq<Event>) {
    TraceOf(rs, events) && forall i :: 0 <= i < |rs| ==> TraceFormat.Fits(rs[i])
  }

  /** The lines of `events`, each with its timestamp. */
  function Lines(events: seq<Event>, stamps: seq<nat>): seq<seq<Byte>>
    requires |stamps| == |events|
  {
    seq(|events|, i requires 0 <= i < |events| => Line(stamps[i], events[i]))
  }

  lemma LinesNext(events: seq<Event>, stamps: seq<nat>, i: nat)
    requires |stamps| == |events| && i < |events|
    ensures Lines(events[..i + 1], stamps[..i + 1]) == Lines(events[..i], stamps[..i]) + [Line(stamps[i], events[i])]
  {
  }

  method RecordNext(trace: Trace, ghost start: seq<seq<Byte>>, events: seq<Event>, stamps: seq<nat>, i: nat)
    requires trace.Valid() && trace.active && i < |events| == |stamps|
    requires trace.log == start + Lines(events[..i], stamps[..i])
    modifies trace, trace.buf, trace.buf.buffer
    ensures trace.Valid() && trace.active && trace.log == start + Lines(events[..i + 1], stamps[..i + 1])
  {
    LinesNext(events, stamps, i);
    trace.Record(events[i], stamps[i], false, true);
  }

  method RecordEvents(trace: Trace, events: seq<Event>, stamps: seq<nat>)
    requires trace.Valid() && trace.active && |stamps| == |events|
    modifies trace, trace.buf, trace.buf.buffer
    ensures trace.Valid() && trace.active && trace.log == old(trace.log) + Lines(events, stamps)
  {
    ghost var start := trace.log;
    var i := 0;
    assert Lines(events[..0], stamps[..0]) == [];
    while i < |events|
      invariant i <= |events| && trace.Valid() && trace.active
      invariant trace.log == start + Lines(events[..i], stamps[..i])
    {
      RecordNext(trace, start, events, stamps, i);
      i := i + 1;
    }
    assert events[..i] == events && stamps[..i] == stamps;
  }

  /** The events of a session, framed by initialisation and shutdown. */
  function Framed(events: seq<Event>): seq<Event> {
    [Event(EVT_RUNTIME_INIT, 0, 0, 0)] + events + [Event(EVT_RUNTIME_SHUTDOWN, 0, 0, 0)]
  }

  /** The records that make up the lines. */
  function Made(events: seq<Event>, stamps: seq<nat>): seq<Record>
    requires |stamps| == |events|
  {
    seq(|events|, i requires 0 <= i < |events| => MakeRecord(stamps[i], events[i]))
  }

  lemma {:induction false} FlatIsEncoded(lines: seq<seq<Byte>>, rs: seq<Record>)
    requires |lines| == |rs| && forall i :: 0 <= i < |rs| ==> lines[i] == Encode(rs[i])
    ensures Flat(lines) == EncodeAll(rs)
    decreases |rs|
  {
    if rs == [] {
    } else {
      FlatIsEncoded(lines[..|rs| - 1], rs[..|rs| - 1]);
    }
  }

  lemma FlatEncodes(events: seq<Event>, stamps: seq<nat>)
    requires |stamps| == |events|
    ensures Flat(Lines(events, stamps)) == EncodeAll(Made(events, stamps))
  {
    FlatIsEncoded(Lines(events, stamps), Made(events, stamps));
  }

  lemma MadeSession(events: seq<Event>, stamps: seq<nat>)
    requires |stamps| == |events| + 2
    ensures SessionRecords(Made(Framed(events), stamps), events)
  {
    var all, rs := Framed(events), Made(Framed(events), stamps);
    forall i | 0 <= i < |events| ensures rs[i + 1] == MakeRecord(rs[i + 1].timestamp, events[i]) {
      assert all[i + 1] == events[i];
      StampKept(stamps[i + 1], events[i]);
    }
  }

  lemma StampKept(timestamp: nat, e: Event)
    ensures MakeRecord(timestamp, e) == MakeRecord(MakeRecord(timestamp, e).timestamp, e)
  {
  }

  ghost function SessionMade(first: nat, events: seq<Event>, stamps: seq<nat>, last: nat): seq<Record>
    requires |stamps| == |events|
  {
    Made(Framed(events), [first] + stamps + [last])
  }

  ghost function SessionLines(first: nat, events: seq<Event>, stamps: seq<nat>, last: nat): seq<seq<Byte>>
    requires |stamps| == |events|
  {
    [Line(first, Event(EVT_RUNTIME_INIT, 0, 0, 0))] + Lines(events, stamps)
    + [Line(last, Event(EVT_RUNTIME_SHUTDOWN, 0, 0, 0))]
  }

  lemma FramedLines(first: nat, events: seq<Event>, stamps: seq<nat>, last: nat)
    requires |stamps| == |events|
    ensures SessionLines(first, events, stamps, last) == Lines(Framed(events), [first] + stamps + [last])
  {
    var a, b := SessionLines(first, events, stamps, last), Lines(Framed(events), [first] + stamps + [last]);
    assert |a| == |b|;
    forall i | 0 <= i < |a| ensures a[i] == b[i] {
      if 0 < i < |a| - 1 { assert a[i] == Lines(events, stamps)[i - 1]; }
    }
  }

  lemma SessionFile(first: nat, events: seq<Event>, stamps: seq<nat>, last: nat)
    requires |stamps| == |events|
    ensures var rs := SessionMade(first, events, stamps, last);
            Flat(SessionLines(first, events, stamps, last)) == EncodeAll(rs) && SessionRecords(rs, events)
  {
    FramedLines(first, events, stamps, last);
    FlatEncodes(Framed(events), [first] + stamps + [last]);
    MadeSession(events, [first] + stamps + [last]);
  }

  /** Start tracing, record `events` in order, stop; all writes succeed. The
      file is the header and the records, across any number of flushes. */
  method Session(created: nat, freq: nat, first: nat, events: seq<Event>, stamps: seq<nat>, last: nat)
    returns (file: seq<Byte>)
    requires |stamps| == |events|
    ensures var rs := SessionMade(first, events, stamps, last);
            file == Header(created, freq) + EncodeAll(rs) && SessionRecords(rs, events)
  {
    var trace := new Trace(created, freq, first);
    RecordEvents(trace, events, stamps);
    var status;
    ghost var lost;
    status, file, lost := trace.Stop(last, false, true, true);
    assert file + lost == file;
    SessionFile(first, events, stamps, last);
  }

  /** A session file within the size limit loads, with exactly the records of
      the session. */
  lemma SessionLoads(created: nat, freq: nat, rs: seq<Record>, events: seq<Event>)
    requires SessionRecords(rs, events)
    requires |Header(created, freq) + EncodeAll(rs)| <= MAX_FILE_SIZE
    ensures var file := Header(created, freq) + EncodeAll(rs);
            LoadStatus(file) == OK && RecordRoom(file) == |rs| && Records(file, |rs|) == rs
  {
    FileRoundTrip(created, freq, rs);
  }

  /** Reading the file gives back every event that fits a record: types, tids
      and payloads, in order. */
  lemma SessionReadsBack(created: nat, freq: nat, rs: seq<Record>, events: seq<Event>, i: nat)
    requires SessionRecords(rs, events) && i < |events|
    requires |Header(created, freq) + EncodeAll(rs)| <= MAX_FILE_SIZE
    ensures var file := Header(created, freq) + EncodeAll(rs);
            && RecordRoom(file) == |events| + 2 && AllValid(file, |events| + 2)
            && (EventOf(Records(file, |events| + 2)[i + 1]) == events[i] <==> Packable(events[i]))
  {
    SessionLoads(created, freq, rs, events);
    PackingExact(rs[i + 1].timestamp, events[i]);
  }

  /** From the recorded run to the replayed run, through the file: for any
      deterministic program, any sound policy and any run of `N` steps, the
      session file of its events drives the replay through the same states. */
  lemma TraceFileReplays<U(!new), S(!new)>(prog: Program<U>, pick: Picker<S>, inv: S -> bool, r0: Recording<U, S>,
                                           N: nat, created: nat, freq: nat, rs: seq<Record>, n: nat)
    requires RecordingOk(prog, inv, r0) && SoundPicker(pick, inv) && r0.log == [] && n <= N
    requires RecordN(prog, pick, r0, N).c.w.t.nextTid <= TWO32
    requires SessionRecords(rs, RecordN(prog, pick, r0, N).log)
    requires |Header(created, freq) + EncodeAll(rs)| <= MAX_FILE_SIZE
    ensures var file := Header(created, freq) + EncodeAll(rs);
            && LoadStatus(file) == OK && RecordRoom(file) == |rs|
            && var p := ReplayN(prog, Records(file, |rs|), Replaying(r0.c, Cursor(0, false)), n);
            && p.c == RecordN(prog, pick, r0, n).c
            && (p.cur.diverged <==> exists j: nat :: j < n && FailedBeforeSwitch(prog, pick, r0, rs, j))
  {
    SessionLoads(created, freq, rs, RecordN(prog, pick, r0, N).log);
    ReplayReproduces(prog, pick, inv, r0, N, rs, n);
  }
}
