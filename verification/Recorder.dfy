/** Writing a trace: the record buffer, the trace with its file, and a whole
    recording session. A file is the sequence of bytes written so far; whether
    a write succeeds is a parameter. */
module Recorder {
  import opened Types
  import opened TraceFormat

  const BUFFER_RECORDS: nat := 256

  /** The bytes of one record per line. */
  function Flat(lines: seq<seq<Byte>>): seq<Byte> {
    if lines == [] then [] else Flat(lines[..|lines| - 1]) + lines[|lines| - 1]
  }

  lemma FlatSnoc(header: seq<Byte>, lines: seq<seq<Byte>>, line: seq<Byte>)
    ensures header + Flat(lines + [line]) == header + Flat(lines) + line
  {
    assert (lines + [line])[..|lines|] == lines;
  }

  /** What has reached the file, and what is still in the buffer. */
  datatype Bytes = Bytes(file: seq<Byte>, held: seq<Byte>)

  /** One more record: into the buffer if there is room, else behind a flush, and
      dropped if that fails. */
  function Added(b: Bytes, room: bool, record: seq<Byte>, writeOk: bool): Bytes {
    if room then b.(held := b.held + record)
    else if writeOk then Bytes(b.file + b.held, record)
    else b
  }

  /** The record that `gth_trace_record` writes for an event. */
  function Line(timestamp: nat, e: Event): (s: seq<Byte>)
    ensures |s| == RECORD_SIZE
  {
    Encode(MakeRecord(timestamp, e))
  }

  /** `gth_trace_buffer_t`. */
  class TraceBuffer {
    const capacity: nat
    const buffer: array<Byte>
    var count: nat

    ghost predicate Valid()
      reads this
    {
      buffer.Length == capacity * RECORD_SIZE && count <= capacity
    }

    ghost function Contents(): (s: seq<Byte>)
      requires Valid()
      reads this, buffer
      ensures |s| == count * RECORD_SIZE
    {
      buffer[..count * RECORD_SIZE]
    }

    constructor (capacity: nat)
      ensures Valid() && count == 0 && this.capacity == capacity && fresh(buffer)
    {
      this.capacity := capacity;
      this.buffer := new Byte[capacity * RECORD_SIZE](_ => 0);
      this.count := 0;
    }

    method Append(record: seq<Byte>) returns (ok: bool)
      requires Valid() && |record| == RECORD_SIZE
      modifies this, buffer
      ensures Valid() && ok == (old(count) < capacity)
      ensures count == old(count) + if ok then 1 else 0
      ensures Contents() == if ok then old(Contents()) + record else old(Contents())
    {
      if count >= capacity {
        return false;
      }
      var offset := count * RECORD_SIZE;
      var i := 0;
      while i < RECORD_SIZE
        invariant i <= RECORD_SIZE && count == old(count) && buffer[..offset] == old(buffer[..offset])
        invariant forall j :: 0 <= j < i ==> buffer[offset + j] == record[j]
      {
        buffer[offset + i] := record[i];
        i := i + 1;
      }
      count := count + 1;
      assert buffer[offset..offset + RECORD_SIZE] == record;
      assert buffer[..offset + RECORD_SIZE] == buffer[..offset] + buffer[offset..offset + RECORD_SIZE];
      ok := true;
    }

    /** All or nothing: a failed write keeps the buffer. */
    method Flush(file: seq<Byte>, writeOk: bool) returns (file': seq<Byte>, written: nat)
      requires Valid()
      modifies this
      ensures Valid() && file' + Contents() == file + old(Contents())
      ensures if writeOk then count == 0 && written == old(count)
              else file' == file && count == old(count) && written == 0
    {
      file', written := file, 0;
      if count == 0 || !writeOk {
        return;
      }
      file' := file + buffer[..count * RECORD_SIZE];
      written := count;
      count := 0;
    }
  }

  /** `gth_trace_state_t`; `log` is the append-only list of accepted records. */
  class Trace {
    var file: seq<Byte>
    const buf: TraceBuffer
    var eventCount: nat
    var active: bool
    ghost const header: seq<Byte>
    ghost var log: seq<seq<Byte>>

    ghost predicate Valid()
      reads this, buf, buf.buffer
    {
      && buf.Valid() && buf.capacity > 0 && |header| == HEADER_SIZE
      && file + buf.Contents() == header + Flat(log)
      && eventCount == |log|
    }

    ghost function Written(): Bytes
      requires buf.Valid()
      reads this, buf, buf.buffer
    {
      Bytes(file, buf.Contents())
    }

    /** `gth_trace_start` once the header is written. */
    constructor (created: nat, freq: nat, timestamp: nat)
      ensures Valid() && active && fresh(buf) && fresh(buf.buffer)
      ensures header == Header(created, freq)
      ensures log == [Line(timestamp, Event(EVT_RUNTIME_INIT, 0, 0, 0))]
    {
      file := Header(created, freq);
      header := Header(created, freq);
      var b := new TraceBuffer(BUFFER_RECORDS);
      buf := b;
      eventCount, active, log := 0, true, [];
      new;
      assert file + buf.Contents() == header + Flat(log);
      Record(Event(EVT_RUNTIME_INIT, 0, 0, 0), timestamp, false, true);
    }

    /** `gth_trace_record`: nothing is recorded when tracing is off or in replay
        mode; an event is dropped only when the buffer is full and the flush
        fails. What is in the file followed by what is in the buffer is always
        the whole log. */
    method Record(e: Event, timestamp: nat, replaying: bool, writeOk: bool)
      requires Valid()
      modifies this, buf, buf.buffer
      ensures Valid() && active == old(active)
      ensures log == if old(active) && !replaying && (writeOk || old(buf.count) < buf.capacity)
                     then old(log) + [Line(timestamp, e)] else old(log)
      ensures Written() == if old(active) && !replaying
                           then Added(old(Written()), old(buf.count) < buf.capacity, Line(timestamp, e), writeOk)
                           else old(Written())
    {
      if !active || replaying {
        return;
      }
      Accept(Line(timestamp, e), writeOk);
    }

    /** Take the bytes of one more record. */
    method Accept(record: seq<Byte>, writeOk: bool)
      requires Valid() && |record| == RECORD_SIZE
      modifies this`file, this`eventCount, this`log, buf, buf.buffer
      ensures Valid()
      ensures log == if writeOk || old(buf.count) < buf.capacity then old(log) + [record] else old(log)
      ensures Written() == Added(old(Written()), old(buf.count) < buf.capacity, record, writeOk)
    {
      FlatSnoc(header, log, record);
      var ok := Store(record, writeOk);
      if ok {
        eventCount := eventCount + 1;
        log := log + [record];
      }
    }

    /** Append a record to the buffer, flushing once if it is full. */
    method Store(record: seq<Byte>, writeOk: bool) returns (ok: bool)
      requires buf.Valid() && buf.capacity > 0 && |record| == RECORD_SIZE
      modifies this`file, buf, buf.buffer
      ensures buf.Valid() && ok == (writeOk || old(buf.count) < buf.capacity)
      ensures Written() == Added(old(Written()), old(buf.count) < buf.capacity, record, writeOk)
      ensures file + buf.Contents() == if ok then old(file + buf.Contents()) + record else old(file + buf.Contents())
    {
      ok := buf.Append(record);
      if ok {
        assert file + buf.Contents() == old(file + buf.Contents()) + record;
      } else {
        file, ok := Retry(record, writeOk);
      }
    }

    method Retry(record: seq<Byte>, writeOk: bool) returns (file': seq<Byte>, ok: bool)
      requires buf.Valid() && buf.capacity > 0 && buf.count == buf.capacity && |record| == RECORD_SIZE
      modifies buf, buf.buffer
      ensures buf.Valid() && ok == writeOk
      ensures Bytes(file', buf.Contents()) == Added(Bytes(file, old(buf.Contents())), false, record, writeOk)
    {
      var n;
      file', n := buf.Flush(file, writeOk);
      ghost var flushed := buf.Contents();
      ok := buf.Append(record);
      assert ok ==> file' + (flushed + record) == (file' + flushed) + record;
    }

    /** `gth_trace_stop`: the shutdown record and a last flush, each of which may
        fail. What is then still buffered is lost with the buffer. */
    method Stop(timestamp: nat, replaying: bool, recordOk: bool, flushOk: bool)
      returns (status: Status, done: seq<Byte>, ghost lost: seq<Byte>)
      requires Valid()
      modifies this, buf, buf.buffer
      ensures !active && status == if old(active) then OK else ESTATE
      ensures !old(active) ==> done == old(file) && log == old(log)
      ensures old(active) ==>
                var line := Line(timestamp, Event(EVT_RUNTIME_SHUTDOWN, 0, 0, 0));
                var room := old(buf.count) < buf.capacity;
                var b := if replaying then old(Written()) else Added(old(Written()), room, line, recordOk);
                && log == (if !replaying && (recordOk || room) then old(log) + [line] else old(log))
                && Bytes(done, lost) == (if flushOk then Bytes(b.file + b.held, []) else b)
                && done + lost == header + Flat(log)
    {
      if !active {
        return ESTATE, file, [];
      }
      Record(Event(EVT_RUNTIME_SHUTDOWN, 0, 0, 0), timestamp, replaying, recordOk);
      var n;
      file, n := buf.Flush(file, flushOk);
      done, lost := file, buf.Contents();
      active := false;
      status := OK;
    }
  }
}
