/** The binary trace format: little-endian fields, 32-byte records with an
    FNV-1a checksum, and the 32-byte header. */
module TraceFormat {
  import opened Types

  type Byte = x: nat | x < 256

  const TWO32: nat := 0x1_0000_0000
  const TWO64: nat := 0x1_0000_0000_0000_0000
  const TRACE_MAGIC: nat := 0x32525447
  const TRACE_VERSION: nat := 2
  const RECORD_SIZE: nat := 32
  const HEADER_SIZE: nat := 32

  // ----- Little-endian numbers -----

  function Pow256(k: nat): nat {
    if k == 0 then 1 else 256 * Pow256(k - 1)
  }

  function ToBytes(n: nat, k: nat): (s: seq<Byte>)
    ensures |s| == k
    decreases k
  {
    if k == 0 then [] else [n % 256] + ToBytes(n / 256, k - 1)
  }

  function FromBytes(s: seq<Byte>): nat {
    if s == [] then 0 else s[0] + 256 * FromBytes(s[1..])
  }

  lemma {:induction false} BytesRoundTrip(n: nat, k: nat)
    requires n < Pow256(k)
    ensures FromBytes(ToBytes(n, k)) == n
    decreases k
  {
    if k == 0 {
    } else {
      BytesRoundTrip(n / 256, k - 1);
      assert ToBytes(n, k)[1..] == ToBytes(n / 256, k - 1);
    }
  }

  lemma {:induction false} FromBytesInjective(s: seq<Byte>, r: seq<Byte>)
    requires |s| == |r| && FromBytes(s) == FromBytes(r)
    ensures s == r
    decreases |s|
  {
    if s == [] {
    } else {
      assert s[0] == FromBytes(s) % 256 && r[0] == FromBytes(r) % 256;
      FromBytesInjective(s[1..], r[1..]);
      assert s == [s[0]] + s[1..] && r == [r[0]] + r[1..];
    }
  }

  lemma Widths()
    ensures Pow256(U8()) == 256 && Pow256(U16()) == 0x1_0000 && Pow256(U32()) == TWO32 && Pow256(U64()) == TWO64
  {
    assert Pow256(3) == 256 * Pow256(2);
    assert Pow256(5) == 256 * Pow256(4);
    assert Pow256(6) == 256 * Pow256(5);
    assert Pow256(7) == 256 * Pow256(6);
  }

  /** The widths of the fields in bytes. */
  function U8(): nat { 1 }
  function U16(): nat { 2 }
  function U32(): nat { 4 }
  function U64(): nat { 8 }

  // ----- FNV-1a -----

  const FNV_BASIS: nat := 2166136261
  const FNV_PRIME: nat := 16777619

  /** Bitwise exclusive or. */
  function Xor(a: nat, b: nat): nat
    decreases a + b
  {
    if a == 0 && b == 0 then 0 else (a % 2 + b % 2) % 2 + 2 * Xor(a / 2, b / 2)
  }

  /** Multiplication by the prime in 32-bit arithmetic. */
  function Mix(x: nat): (h: nat)
    ensures h < TWO32
  {
    x * FNV_PRIME % TWO32
  }

  function FnvStep(hash: nat, b: Byte): (h: nat)
    ensures h < TWO32
  {
    Mix(Xor(hash, b))
  }

  function Fnv(s: seq<Byte>): (h: nat)
    ensures h < TWO32
  {
    if s == [] then FNV_BASIS else FnvStep(Fnv(s[..|s| - 1]), s[|s| - 1])
  }

  lemma BitCancels(a: nat, b: nat)
    ensures ((a % 2 + b % 2) % 2 + b % 2) % 2 == a % 2
  {
  }

  lemma HalfOf(d: nat, x: nat)
    requires d < 2
    ensures (d + 2 * x) % 2 == d && (d + 2 * x) / 2 == x
  {
  }

  lemma XorUnfold(a: nat, b: nat)
    ensures Xor(a, b) == (a % 2 + b % 2) % 2 + 2 * Xor(a / 2, b / 2)
  {
  }

  lemma Doubled(a: nat, d: nat, h: nat)
    requires d == a % 2 && h == a / 2
    ensures a == d + 2 * h
  {
  }

  lemma XorBack(a: nat, b: nat, d: nat, x: nat)
    requires d == (a % 2 + b % 2) % 2 && Xor(x, b / 2) == a / 2
    ensures Xor(d + 2 * x, b) == a
  {
    XorUnfold(d + 2 * x, b);
    HalfOf(d, x);
    BitCancels(a, b);
    Doubled(a, (d + b % 2) % 2, Xor(x, b / 2));
  }

  lemma {:induction false} XorCancels(a: nat, b: nat)
    ensures Xor(Xor(a, b), b) == a
    decreases a + b
  {
    if a == 0 && b == 0 {
    } else {
      XorCancels(a / 2, b / 2);
      XorUnfold(a, b);
      XorBack(a, b, (a % 2 + b % 2) % 2, Xor(a / 2, b / 2));
    }
  }

  lemma {:induction false} XorCommutes(a: nat, b: nat)
    ensures Xor(a, b) == Xor(b, a)
    decreases a + b
  {
    if a == 0 && b == 0 {
    } else {
      XorCommutes(a / 2, b / 2);
    }
  }

  function Pow2(k: nat): nat {
    if k == 0 then 1 else 2 * Pow2(k - 1)
  }

  lemma {:induction false} XorBound(a: nat, b: nat, k: nat)
    requires a < Pow2(k) && b < Pow2(k)
    ensures Xor(a, b) < Pow2(k)
    decreases k
  {
    if k == 0 || (a == 0 && b == 0) {
    } else {
      XorBound(a / 2, b / 2, k - 1);
    }
  }

  lemma Pow2Is32()
    ensures Pow2(32) == TWO32
  {
    assert Pow2(4) == 16 && Pow2(8) == 256;
    assert Pow2(12) == 16 * Pow2(8) && Pow2(16) == 16 * Pow2(12);
    assert Pow2(20) == 16 * Pow2(16) && Pow2(24) == 16 * Pow2(20);
    assert Pow2(28) == 16 * Pow2(24) && Pow2(32) == 16 * Pow2(28);
  }

  /** 2^32 divides a multiple of the odd FNV prime only when it divides the
      other factor: 899433627 is the inverse of the prime. */
  lemma NoSmallMultiple(d: int, e: int)
    requires -0x1_0000_0000 < d < 0x1_0000_0000 && d * 16777619 == 0x1_0000_0000 * e
    ensures d == 0
  {
    var f := e * 899433627 - d * 3513497;
    assert d == 0x1_0000_0000 * f;
  }

  lemma SameRemainder(x: nat, y: nat, p: int, q: int, r: int)
    requires x < 0x1_0000_0000 && y < 0x1_0000_0000
    requires x * 16777619 == 0x1_0000_0000 * p + r && y * 16777619 == 0x1_0000_0000 * q + r
    ensures x == y
  {
    NoSmallMultiple(x - y, p - q);
  }

  lemma MixQuotient(x: nat) returns (q: nat)
    ensures x * 16777619 == 0x1_0000_0000 * q + Mix(x)
  {
    q := x * 16777619 / 0x1_0000_0000;
  }

  /** Multiplying by the FNV prime modulo 2^32 loses nothing. */
  lemma MixInjective(x: nat, y: nat)
    requires x < TWO32 && y < TWO32 && Mix(x) == Mix(y)
    ensures x == y
  {
    var p := MixQuotient(x);
    var q := MixQuotient(y);
    SameRemainder(x, y, p, q, Mix(x));
  }

  /** One hashing step separates different hashes for the same byte, and
      different bytes for the same hash. */
  lemma FnvStepInjective(g: nat, h: nat, a: Byte, b: Byte)
    requires g < TWO32 && h < TWO32 && FnvStep(g, a) == FnvStep(h, b) && (g == h || a == b)
    ensures g == h && a == b
  {
    Pow2Is32();
    XorBound(g, a, 32);
    XorBound(h, b, 32);
    MixInjective(Xor(g, a), Xor(h, b));
    XorCancels(g, a);
    XorCancels(h, b);
    XorCommutes(g, a);
    XorCommutes(h, b);
    XorCancels(a, g);
    XorCancels(b, h);
  }

  /** The hash of a byte sequence changes whenever exactly one byte does. */
  lemma {:induction false} FnvDetects(s: seq<Byte>, p: nat, b: Byte)
    requires p < |s| && s[p] != b
    ensures Fnv(s[p := b]) != Fnv(s)
    decreases |s|
  {
    var r, n := s[p := b], |s| - 1;
    if p == n {
      assert r[..n] == s[..n];
    } else {
      assert r[..n] == s[..n][p := b];
      FnvDetects(s[..n], p, b);
    }
    if Fnv(r) == Fnv(s) {
      FnvStepInjective(Fnv(r[..n]), Fnv(s[..n]), r[n], s[n]);
    }
  }

  // ----- Records -----

  /** The fields of a record that the runtime fills in; the others are zero. */
  datatype Record = Record(timestamp: nat, kind: nat, tid: nat, data: nat)

  predicate Fits(r: Record) {
    r.timestamp < TWO64 && r.kind < 256 && r.tid < TWO32 && r.data < TWO64
  }

  /** A field of a packed structure: its value and its width in bytes. */
  function Field(f: (nat, nat)): seq<Byte> {
    ToBytes(f.0, f.1)
  }

  function Packed(fields: seq<(nat, nat)>): seq<Byte> {
    if fields == [] then [] else Packed(fields[..|fields| - 1]) + Field(fields[|fields| - 1])
  }

  lemma PackedNext(fields: seq<(nat, nat)>, n: nat)
    requires n < |fields|
    ensures Packed(fields[..n + 1]) == Packed(fields[..n]) + Field(fields[n])
  {
    assert fields[..n + 1][..n] == fields[..n];
  }

  lemma PackedThree(f: seq<(nat, nat)>)
    requires |f| >= 3
    ensures Packed(f[..3]) == Field(f[0]) + Field(f[1]) + Field(f[2])
  {
    PackedNext(f, 0);
    PackedNext(f, 1);
    PackedNext(f, 2);
    assert Packed(f[..1]) == [] + Field(f[0]) == Field(f[0]);
  }

  lemma PackedFive(f: seq<(nat, nat)>)
    requires |f| >= 5
    ensures Packed(f[..5]) == Field(f[0]) + Field(f[1]) + Field(f[2]) + Field(f[3]) + Field(f[4])
  {
    PackedThree(f);
    PackedNext(f, 3);
    PackedNext(f, 4);
  }

  lemma PackedSeven(f: seq<(nat, nat)>)
    requires |f| == 7
    ensures Packed(f)
         == Field(f[0]) + Field(f[1]) + Field(f[2]) + Field(f[3]) + Field(f[4]) + Field(f[5]) + Field(f[6])
  {
    PackedFive(f);
    PackedNext(f, 5);
    PackedNext(f, 6);
    assert f[..7] == f;
  }

  /** Timestamp, type, reserved byte, tid, slot index, data, padding. */
  function Fields(r: Record): seq<(nat, nat)> {
    [(r.timestamp, U64()), (r.kind, U8()), (0, U8()), (r.tid, U32()), (0, U32()), (r.data, U64()), (0, U16())]
  }

  lemma FieldsPacked(r: Record)
    ensures Packed(Fields(r))
         == ToBytes(r.timestamp, U64()) + ToBytes(r.kind, U8()) + ToBytes(0, U8()) + ToBytes(r.tid, U32())
            + ToBytes(0, U32()) + ToBytes(r.data, U64()) + ToBytes(0, U16())
  {
    PackedSeven(Fields(r));
  }

  function Payload(r: Record): (s: seq<Byte>)
    ensures |s| == 28
  {
    FieldsPacked(r);
    Packed(Fields(r))
  }

  function Encode(r: Record): (s: seq<Byte>)
    ensures |s| == RECORD_SIZE
  {
    Payload(r) + ToBytes(Fnv(Payload(r)), U32())
  }

  function Decode(s: seq<Byte>): Record
    requires |s| == RECORD_SIZE
  {
    Record(FromBytes(s[0..8]), FromBytes(s[8..9]), FromBytes(s[10..14]), FromBytes(s[18..26]))
  }

  /** The stored checksum is that of the other 28 bytes. */
  predicate ValidRecord(s: seq<Byte>)
    requires |s| == RECORD_SIZE
  {
    FromBytes(s[28..32]) == Fnv(s[..28])
  }

  /** `gth_trace_calc_checksum`: the hash of all bytes but the last four. */
  method Checksum(s: seq<Byte>) returns (hash: nat)
    requires |s| == RECORD_SIZE
    ensures hash == Fnv(s[..28])
  {
    hash := 2166136261;
    var i := 0;
    while i < RECORD_SIZE - 4
      invariant i <= RECORD_SIZE - 4 && hash == Fnv(s[..i])
    {
      assert s[..i + 1][..i] == s[..i];
      hash := Xor(hash, s[i]);
      hash := hash * 16777619 % TWO32;
      i := i + 1;
    }
  }

  /** `gth_trace_validate_record`. */
  method ValidateRecord(s: seq<Byte>) returns (ok: bool)
    requires |s| == RECORD_SIZE
    ensures ok <==> ValidRecord(s)
  {
    var hash := Checksum(s);
    ok := FromBytes(s[28..32]) == hash;
  }

  lemma Skip(a: seq<Byte>, rest: seq<Byte>, i: nat, j: nat)
    requires i <= j <= |rest|
    ensures (a + rest)[|a| + i..|a| + j] == rest[i..j]
  {
  }

  /** Where the fields lie in a concatenation of the record layout. */
  lemma Layout(a: seq<Byte>, b: seq<Byte>, c: seq<Byte>, d: seq<Byte>, e: seq<Byte>, f: seq<Byte>, g: seq<Byte>,
               h: seq<Byte>)
    requires |a| == 8 && |b| == 1 && |c| == 1 && |d| == 4 && |e| == 4 && |f| == 8 && |g| == 2 && |h| == 4
    ensures var s := (a + b + c + d + e + f + g) + h;
            && |s| == 32 && s[0..8] == a && s[8..9] == b && s[10..14] == d && s[18..26] == f && s[28..32] == h
            && s[..28] == a + b + c + d + e + f + g
  {
    var abc := a + b + c;
    var abcde := abc + d + e;
    var abcdefg := abcde + f + g;
    Skip(abcdefg, h, 0, 4);
    Front(abcdefg, h, 0, 28);
    Front(abcdefg, h, 18, 26);
    Front(abcde + f, g, 18, 26);
    Skip(abcde, f, 0, 8);
    Front(abcdefg, h, 0, 14);
    Front(abcde + f, g, 0, 14);
    Front(abcde, f, 0, 14);
    Front(abc + d, e, 0, 14);
    Prefixes(a, b, c, d, (abcdefg + h)[0..14]);
    Inside(abcdefg + h, 14, 0, 8);
    Inside(abcdefg + h, 14, 8, 9);
    Inside(abcdefg + h, 14, 10, 14);
  }

  lemma Front(q: seq<Byte>, x: seq<Byte>, i: nat, j: nat)
    requires i <= j <= |q|
    ensures (q + x)[i..j] == q[i..j]
  {
  }

  lemma Inside(s: seq<Byte>, n: nat, i: nat, j: nat)
    requires i <= j <= n <= |s|
    ensures s[0..n][i..j] == s[i..j]
  {
  }

  lemma Prefixes(a: seq<Byte>, b: seq<Byte>, c: seq<Byte>, d: seq<Byte>, s: seq<Byte>)
    requires |a| == 8 && |b| == 1 && |c| == 1 && |d| == 4 && s == a + b + c + d
    ensures s[0..8] == a && s[8..9] == b && s[10..14] == d
  {
    Skip(a + b + c, d, 0, 4);
    Front(a + b + c, d, 8, 9);
    Front(a + b, c, 8, 9);
    Skip(a, b, 0, 1);
    Front(a + b + c, d, 0, 8);
    Front(a + b, c, 0, 8);
    Front(a, b, 0, 8);
  }

  /** A record reads back as it was written, and it passes the checksum. */
  lemma RecordRoundTrip(r: Record)
    requires Fits(r)
    ensures Decode(Encode(r)) == r && ValidRecord(Encode(r))
  {
    var sum := Fnv(Payload(r));
    FieldsPacked(r);
    Layout(ToBytes(r.timestamp, U64()), ToBytes(r.kind, U8()), ToBytes(0, U8()), ToBytes(r.tid, U32()),
           ToBytes(0, U32()), ToBytes(r.data, U64()), ToBytes(0, U16()), ToBytes(sum, U32()));
    FieldsRoundTrip(r, sum);
  }

  lemma FieldsRoundTrip(r: Record, sum: nat)
    requires Fits(r) && sum < TWO32
    ensures FromBytes(ToBytes(r.timestamp, U64())) == r.timestamp && FromBytes(ToBytes(r.kind, U8())) == r.kind
    ensures FromBytes(ToBytes(r.tid, U32())) == r.tid && FromBytes(ToBytes(r.data, U64())) == r.data
    ensures FromBytes(ToBytes(sum, U32())) == sum
  {
    Widths();
    BytesRoundTrip(r.timestamp, U64());
    BytesRoundTrip(r.kind, U8());
    BytesRoundTrip(r.tid, U32());
    BytesRoundTrip(r.data, U64());
    BytesRoundTrip(sum, U32());
  }

  /** Changing any one byte of a valid record makes it invalid. */
  lemma ChecksumDetects(s: seq<Byte>, p: nat, b: Byte)
    requires |s| == RECORD_SIZE && ValidRecord(s) && p < RECORD_SIZE && s[p] != b
    ensures !ValidRecord(s[p := b])
  {
    var r := s[p := b];
    if p < 28 {
      assert r[..28] == s[..28][p := b] && r[28..32] == s[28..32];
      FnvDetects(s[..28], p, b);
    } else {
      assert r[..28] == s[..28];
      assert r[28..32][p - 28] != s[28..32][p - 28];
      if FromBytes(r[28..32]) == FromBytes(s[28..32]) { FromBytesInjective(r[28..32], s[28..32]); }
    }
  }

  // ----- Packing -----

  /** The two 32-bit halves of the data field. */
  function Halves(high: nat, low: nat): (d: nat)
    ensures d < TWO64
  {
    high % TWO32 * TWO32 + low % TWO32
  }

  predicate PacksHalves(kind: nat) {
    kind in {EVT_CONTEXT_SWITCH, EVT_SEM_WAIT, EVT_SEM_POST, EVT_COND_BROADCAST, EVT_COND_SIGNAL}
  }

  function MakeRecord(timestamp: nat, e: Event): (r: Record)
    ensures Fits(r)
  {
    Record(timestamp % TWO64, e.kind % 256, e.tid % TWO32,
           if PacksHalves(e.kind) then Halves(e.data1, e.data2) else e.data1 % TWO64)
  }

  /** The thread a context-switch record names: the low half of its data. */
  function TargetOf(r: Record): nat {
    r.data % TWO32
  }

  lemma SwitchTarget(timestamp: nat, from: nat, to: nat)
    ensures var r := MakeRecord(timestamp, Event(EVT_CONTEXT_SWITCH, from, from, to));
            r.kind == EVT_CONTEXT_SWITCH && TargetOf(r) == to % TWO32
  {
    LowHalf(from % TWO32, to % TWO32);
  }

  lemma LowHalf(h: nat, l: nat)
    requires l < TWO32
    ensures (h * TWO32 + l) % TWO32 == l
  {
  }

  /** What a reader of the record learns about the event. */
  function EventOf(r: Record): Event {
    if PacksHalves(r.kind) then Event(r.kind, r.tid, r.data / TWO32, r.data % TWO32)
    else Event(r.kind, r.tid, r.data, 0)
  }

  /** The event fits the fields of a record: two 32-bit halves, or one word. */
  predicate Packable(e: Event) {
    && e.kind < 256 && e.tid < TWO32
    && if PacksHalves(e.kind) then e.data1 < TWO32 && e.data2 < TWO32 else e.data1 < TWO64 && e.data2 == 0
  }

  /** Packing loses nothing exactly when the event fits. */
  lemma PackingExact(timestamp: nat, e: Event)
    ensures EventOf(MakeRecord(timestamp, e)) == e <==> Packable(e)
  {
    var h, l := e.data1 % TWO32, e.data2 % TWO32;
    LowHalf(h, l);
    HighHalf(h, l);
  }

  lemma HighHalf(h: nat, l: nat)
    requires l < TWO32
    ensures (h * TWO32 + l) / TWO32 == h
  {
  }

  // ----- The file -----

  function Header(created: nat, freq: nat): (s: seq<Byte>)
    ensures |s| == HEADER_SIZE
  {
    ToBytes(TRACE_MAGIC, U32()) + ToBytes(TRACE_VERSION, U32()) + ToBytes(created, U64()) + ToBytes(freq, U64())
    + ToBytes(0, U64())
  }

  predicate ValidHeader(s: seq<Byte>) {
    |s| >= HEADER_SIZE && FromBytes(s[0..4]) == TRACE_MAGIC && FromBytes(s[4..8]) == TRACE_VERSION
  }

  lemma HeaderLayout(a: seq<Byte>, b: seq<Byte>, c: seq<Byte>, d: seq<Byte>, e: seq<Byte>, rest: seq<Byte>)
    requires |a| == 4 && |b| == 4
    ensures var s := a + b + c + d + e + rest; |s| >= 8 && s[0..4] == a && s[4..8] == b
  {
  }

  lemma HeaderValid(created: nat, freq: nat, rest: seq<Byte>)
    ensures ValidHeader(Header(created, freq) + rest)
  {
    Widths();
    HeaderLayout(ToBytes(TRACE_MAGIC, U32()), ToBytes(TRACE_VERSION, U32()), ToBytes(created, U64()),
                 ToBytes(freq, U64()), ToBytes(0, U64()), rest);
    BytesRoundTrip(TRACE_MAGIC, U32());
    BytesRoundTrip(TRACE_VERSION, U32());
  }

  function EncodeAll(rs: seq<Record>): (s: seq<Byte>)
    ensures |s| == RECORD_SIZE * |rs|
  {
    if rs == [] then [] else EncodeAll(rs[..|rs| - 1]) + Encode(rs[|rs| - 1])
  }

  /** The bytes of the `i`-th record of a file. */
  function RecordBytes(data: seq<Byte>, i: nat): (s: seq<Byte>)
    requires HEADER_SIZE + RECORD_SIZE * (i + 1) <= |data|
    ensures |s| == RECORD_SIZE
  {
    data[HEADER_SIZE + RECORD_SIZE * i..HEADER_SIZE + RECORD_SIZE * (i + 1)]
  }

  lemma RecordAfter(header: seq<Byte>, before: seq<Byte>, r: seq<Byte>, rest: seq<Byte>, i: nat)
    requires |header| == HEADER_SIZE && |before| == RECORD_SIZE * i && |r| == RECORD_SIZE
    ensures RecordBytes(header + (before + r) + rest, i) == r
  {
    Skip(header + before, r + rest, 0, RECORD_SIZE);
    assert header + (before + r) + rest == (header + before) + (r + rest);
  }

  lemma {:induction false} EncodeAllAt(header: seq<Byte>, rs: seq<Record>, rest: seq<Byte>, i: nat)
    requires |header| == HEADER_SIZE && i < |rs|
    ensures RecordBytes(header + EncodeAll(rs) + rest, i) == Encode(rs[i])
    decreases |rs|
  {
    var n := |rs| - 1;
    var before, last := EncodeAll(rs[..n]), Encode(rs[n]);
    if i == n {
      RecordAfter(header, before, last, rest, n);
    } else {
      EncodeAllAt(header, rs[..n], last + rest, i);
      Reassociate(header, before, last, rest);
    }
  }

  lemma Reassociate(a: seq<Byte>, b: seq<Byte>, c: seq<Byte>, d: seq<Byte>)
    ensures a + (b + c) + d == a + b + (c + d)
  {
  }

  /** How many whole records a file has room for. */
  function RecordRoom(data: seq<Byte>): nat
    requires |data| >= HEADER_SIZE
  {
    (|data| - HEADER_SIZE) / RECORD_SIZE
  }

  ghost predicate AllValid(data: seq<Byte>, n: nat)
    requires HEADER_SIZE + RECORD_SIZE * n <= |data|
  {
    forall i: nat :: i < n ==> ValidRecord(RecordBytes(data, i))
  }

  /** The records of a trace file. */
  function Records(data: seq<Byte>, n: nat): (rs: seq<Record>)
    requires HEADER_SIZE + RECORD_SIZE * n <= |data|
    ensures |rs| == n
  {
    seq(n, i requires 0 <= i < n => Decode(RecordBytes(data, i)))
  }

  /** A written file is valid, has room for exactly the records written, and
      decodes to them in order. */
  lemma FileRoundTrip(created: nat, freq: nat, rs: seq<Record>)
    requires forall i :: 0 <= i < |rs| ==> Fits(rs[i])
    ensures var data := Header(created, freq) + EncodeAll(rs);
            && ValidHeader(data) && RecordRoom(data) == |rs|
            && AllValid(data, |rs|) && Records(data, |rs|) == rs
  {
    HeaderValid(created, freq, EncodeAll(rs));
    BodyRoundTrip(Header(created, freq), rs);
  }

  lemma RecordReads(header: seq<Byte>, rs: seq<Record>, i: nat)
    requires |header| == HEADER_SIZE && i < |rs| && Fits(rs[i])
    ensures var data := header + EncodeAll(rs);
            ValidRecord(RecordBytes(data, i)) && Decode(RecordBytes(data, i)) == rs[i]
  {
    EncodeAllAt(header, rs, [], i);
    assert header + EncodeAll(rs) + [] == header + EncodeAll(rs);
    RecordRoundTrip(rs[i]);
  }

  lemma BodyRoom(header: seq<Byte>, body: seq<Byte>, n: nat)
    requires |header| == HEADER_SIZE && |body| == RECORD_SIZE * n
    ensures RecordRoom(header + body) == n
  {
  }

  lemma BodyValid(header: seq<Byte>, rs: seq<Record>)
    requires |header| == HEADER_SIZE && forall i :: 0 <= i < |rs| ==> Fits(rs[i])
    ensures AllValid(header + EncodeAll(rs), |rs|)
  {
    forall i: nat | i < |rs| ensures ValidRecord(RecordBytes(header + EncodeAll(rs), i)) {
      RecordReads(header, rs, i);
    }
  }

  lemma RecordsAt(data: seq<Byte>, n: nat, i: nat)
    requires HEADER_SIZE + RECORD_SIZE * n <= |data| && i < n
    ensures Records(data, n)[i] == Decode(RecordBytes(data, i))
  {
  }

  lemma SameRecords(a: seq<Record>, b: seq<Record>)
    requires |a| == |b| && forall i :: 0 <= i < |a| ==> a[i] == b[i]
    ensures a == b
  {
  }

  lemma BodyRecord(header: seq<Byte>, rs: seq<Record>, i: nat)
    requires |header| == HEADER_SIZE && i < |rs| && Fits(rs[i])
    ensures Records(header + EncodeAll(rs), |rs|)[i] == rs[i]
  {
    RecordsAt(header + EncodeAll(rs), |rs|, i);
    RecordReads(header, rs, i);
  }

  lemma BodyRecords(header: seq<Byte>, rs: seq<Record>)
    requires |header| == HEADER_SIZE && forall i :: 0 <= i < |rs| ==> Fits(rs[i])
    ensures Records(header + EncodeAll(rs), |rs|) == rs
  {
    forall i | 0 <= i < |rs| ensures Records(header + EncodeAll(rs), |rs|)[i] == rs[i] { BodyRecord(header, rs, i); }
    SameRecords(Records(header + EncodeAll(rs), |rs|), rs);
  }

  lemma BodyRoundTrip(header: seq<Byte>, rs: seq<Record>)
    requires |header| == HEADER_SIZE && forall i :: 0 <= i < |rs| ==> Fits(rs[i])
    ensures var data := header + EncodeAll(rs);
            RecordRoom(data) == |rs| && AllValid(data, |rs|) && Records(data, |rs|) == rs
  {
    BodyRoom(header, EncodeAll(rs), |rs|);
    BodyValid(header, rs);
    BodyRecords(header, rs);
  }
}
