/** Record, write, load, replay: the whole pipeline as one program over the trace
    and the replay state, with the step machine underneath. */
module EndToEnd {
  import opened Types
  import opened Machine
  import opened Programs
  import opened TraceFormat
  import opened Replay
  import opened Loader

  /** Run the program for `n` steps under the policy and keep its events. */
  method RunRecorded<U, S>(prog: Program<U>, pick: Picker<S>, r0: Recording<U, S>, n: nat)
    returns (r: Recording<U, S>)
    ensures r == RecordN(prog, pick, r0, n)
  {
    r := r0;
    var i := 0;
    while i < n
      invariant i <= n && r == RecordN(prog, pick, r0, i)
    {
      r := RecordStep(prog, pick, r);
      i := i + 1;
    }
  }

  lemma ReplayEnabled<U(!new)>(prog: Program<U>, c: Config<U>, rs: seq<Record>, cur: Cursor)
    requires Good(prog, c.w) && cur.idx <= |rs|
    ensures var choice := if AtSched(c.w) then ReplayPick(rs, cur, c.w.t.threads).0 else None;
            Enabled(c.w, NextMove(prog, c, choice))
  {
    var choice := if AtSched(c.w) then ReplayPick(rs, cur, c.w.t.threads).0 else None;
    ReplayReady(rs);
    assert AtSched(c.w) ==> NobodyRuns(c.w.t.threads) && choice == ReplayPicker(rs)(c.w.t.threads, cur).0;
    NeverStuck(prog, c, choice);
  }

  /** One step in replay mode: at a scheduling point the replay state decides. */
  method StepReplayed<U(!new)>(prog: Program<U>, st: ReplayState, c0: Config<U>) returns (c: Config<U>)
    requires st.Valid() && Good(prog, c0.w)
    modifies st
    ensures st.Valid() && Good(prog, c.w)
    ensures Replaying(c, st.Position()) == ReplayStep(prog, st.Trace(), Replaying(c0, old(st.Position())))
  {
    ReplayEnabled(prog, c0, st.Trace(), st.Position());
    var choice := None;
    if AtSched(c0.w) {
      choice := st.NextThread(c0.w.t.threads);
    }
    StepGood(prog, c0.w, NextMove(prog, c0, choice));
    c := NextConfig(prog, c0, choice);
  }

  method RunReplayed<U(!new)>(prog: Program<U>, st: ReplayState, c0: Config<U>, n: nat) returns (c: Config<U>)
    requires st.Valid() && Good(prog, c0.w)
    modifies st
    ensures st.Valid()
    ensures Replaying(c, st.Position()) == ReplayN(prog, st.Trace(), Replaying(c0, old(st.Position())), n)
  {
    c := c0;
    var i := 0;
    while i < n
      invariant i <= n && st.Valid() && Good(prog, c.w)
      invariant Replaying(c, st.Position()) == ReplayN(prog, st.Trace(), Replaying(c0, old(st.Position())), i)
    {
      c := StepReplayed(prog, st, c);
      i := i + 1;
    }
  }

  function Stamps(n: nat, clock: nat -> nat): seq<nat> {
    seq(n, (i: nat) => clock(i + 1))
  }

  /** The records of the events, framed and stamped by `clock`. */
  ghost function TraceRecords(events: seq<Event>, clock: nat -> nat): seq<Record> {
    SessionMade(clock(0), events, Stamps(|events|, clock), clock(|events| + 1))
  }

  /** Write the events of a run to a trace file. */
  method WriteTrace(events: seq<Event>, created: nat, freq: nat, clock: nat -> nat) returns (file: seq<Byte>)
    ensures file == Header(created, freq) + EncodeAll(TraceRecords(events, clock))
    ensures SessionRecords(TraceRecords(events, clock), events)
  {
    file := Session(created, freq, clock(0), events, Stamps(|events|, clock), clock(|events| + 1));
  }

  /** Load a trace file and replay `n` steps of the program from `c0`. */
  method ReplayFile<U(!new)>(prog: Program<U>, file: seq<Byte>, c0: Config<U>, n: nat)
    returns (status: Status, c: Config<U>, diverged: bool)
    requires Good(prog, c0.w)
    ensures status == LoadStatus(file)
    ensures status == OK ==>
              && |file| >= HEADER_SIZE && AllValid(file, RecordRoom(file))
              && var p := ReplayN(prog, Records(file, RecordRoom(file)), Replaying(c0, Cursor(0, false)), n);
                 c == p.c && diverged == p.cur.diverged
  {
    var st;
    status, st := Load("trace", false, Some(file), true);
    c, diverged := c0, false;
    if st != null {
      c := RunReplayed(prog, st, c0, n);
      diverged := st.diverged;
    }
  }

  /** Record `n` steps of a program from the configuration `c0`, write the trace,
      load it and replay `n` steps from the same configuration. A file within the
      size limit loads, and the replay ends in the configuration in which the
      recorded run ended, program memory included; it is marked as diverged exactly
      if a failed pick preceded a later switch. */
  method RecordAndReplay<U(!new), S(!new)>(prog: Program<U>, pick: Picker<S>, ghost inv: S -> bool,
                                           c0: Config<U>, s0: S, n: nat, created: nat, freq: nat, clock: nat -> nat)
    returns (size: nat, status: Status, recorded: Config<U>, replayed: Config<U>, diverged: bool, ghost rs: seq<Record>)
    requires Good(prog, c0.w) && SoundPicker(pick, inv) && inv(s0)
    ensures recorded == RecordN(prog, pick, Recording(c0, s0, []), n).c
    ensures size == HEADER_SIZE + RECORD_SIZE * |rs| && (status == OK <==> size <= MAX_FILE_SIZE)
    ensures status == OK && recorded.w.t.nextTid <= TWO32 ==>
              && replayed == recorded
              && (diverged <==> exists j: nat :: j < n && FailedBeforeSwitch(prog, pick, Recording(c0, s0, []), rs, j))
  {
    var r0 := Recording(c0, s0, []);
    var r := RunRecorded(prog, pick, r0, n);
    recorded := r.c;
    var file := WriteTrace(r.log, created, freq, clock);
    rs := TraceRecords(r.log, clock);
    size := |file|;
    status, replayed, diverged := ReplayFile(prog, file, c0, n);
    if size <= MAX_FILE_SIZE {
      SessionLoads(created, freq, rs, r.log);
      if recorded.w.t.nextTid <= TWO32 {
        TraceFileReplays(prog, pick, inv, r0, n, created, freq, rs, n);
      }
    }
  }
}
