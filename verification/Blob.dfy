/**
 * The blob stream: a cursor over a fixed-length byte array, with 64-bit stream
 * sizes and offsets, 32-bit positions and the narrowing between them.
 */
module Blobs {
  import opened Types

  const INT_MAX: int := 0x7FFF_FFFF
  const TWO_32: int := 0x1_0000_0000
  const STREAM_MAX: int := 0x7FFF_FFFF_FFFF_FFFF

  type Byte = bv8

  /** static_cast<int> of a 64-bit value: its low 32 bits, two's complement. */
  function Narrow(x: int): (r: int)
    ensures -0x8000_0000 <= r <= 0x7FFF_FFFF && (r - x) % 0x1_0000_0000 == 0
  {
    var low := x % 0x1_0000_0000;
    if low <= 0x7FFF_FFFF then low else low - 0x1_0000_0000
  }

  predicate FitsInt(x: int) { -0x8000_0000 <= x <= INT_MAX }

  lemma NarrowFits(x: int)
    requires FitsInt(x)
    ensures Narrow(x) == x
  {
  }

  datatype SeekDir = Beg | Cur | End | Other(n: int)

  /** What a call ends in: a value, a thrown SQLite error, or ios_base::failure. */
  datatype Ended<+T> = Ok(value: T) | SqliteError(rv: int) | StreamFailure

  /** The object's members and the blob's bytes. */
  datatype Stream = Stream(bytes: seq<Byte>, pos: int)

  predicate Valid(s: Stream) { 0 <= s.pos <= |s.bytes| <= INT_MAX }

  // ----- what SQLite does -----------------------------------------------------

  /** How an otherwise possible transfer goes: well, or failing with `rv` after `done` bytes. */
  datatype Io = Works | Fails(rv: int, done: nat)

  predicate InBlob(len: nat, n: int, offset: int) { n >= 0 && offset >= 0 && offset + n <= len }

  function IoRv(len: nat, n: int, offset: int, io: Io): int {
    if !InBlob(len, n, offset) then SQLITE_ERROR else if io.Fails? && io.rv != SQLITE_OK then io.rv else SQLITE_OK
  }

  /** How much of a transfer of `n` bytes is done: all of it, or less if it fails on the way. */
  function Transferred(n: nat, io: Io): nat {
    if io.Fails? && io.rv != SQLITE_OK && io.done < n then io.done else n
  }

  /** The bytes a write leaves. */
  function Written(bytes: seq<Byte>, data: seq<Byte>, offset: int, io: Io): seq<Byte>
    requires InBlob(|bytes|, |data|, offset)
  {
    var n := Transferred(|data|, io);
    bytes[..offset] + data[..n] + bytes[offset + n..]
  }

  // ----- the operations -------------------------------------------------------

  function Min(a: int, b: int): int { if a < b then a else b }

  /** blob_source::read: the new stream, and the bytes put into the caller's buffer. */
  function Read(s: Stream, n: int, io: Io): (Stream, Ended<seq<Byte>>)
    requires Valid(s)
  {
    var limit := Min(Narrow(Min(n, INT_MAX)), |s.bytes| - s.pos);
    var rv := IoRv(|s.bytes|, limit, s.pos, io);
    if rv != SQLITE_OK then (s, SqliteError(rv))
    else (s.(pos := s.pos + limit), Ok(s.bytes[s.pos..s.pos + limit]))
  }

  /** blob_source::write of the first `n` bytes of `data`. */
  function Write(s: Stream, data: seq<Byte>, n: int, io: Io): (Stream, Ended<int>)
    requires Valid(s) && 0 <= n <= |data|
  {
    var limit := Narrow(n);
    var rv := IoRv(|s.bytes|, limit, s.pos, io);
    if !InBlob(|s.bytes|, limit, s.pos) then (s, SqliteError(SQLITE_ERROR))
    else
      var t := s.(bytes := Written(s.bytes, data[..limit], s.pos, io));
      if rv != SQLITE_OK then (t, SqliteError(rv)) else (t.(pos := s.pos + limit), Ok(limit))
  }

  /** The position a seek asks for; relative to the end, offset 0 is the last byte. */
  function Target(s: Stream, off: int, way: SeekDir): int
    requires !way.Other?
  {
    match way case Beg => off case Cur => s.pos + off case End => |s.bytes| + off - 1
  }

  /** blob_source::seek. */
  function Seek(s: Stream, off: int, way: SeekDir): (Stream, Ended<int>)
    requires Valid(s)
  {
    if way.Other? then (s, StreamFailure)
    else
      var next := Narrow(Target(s, off, way));
      if next < 0 || next >= |s.bytes| then (s, StreamFailure) else (s.(pos := next), Ok(next))
  }

  // ----- the abstract stream --------------------------------------------------

  /**
   * The same operations without machine integers: a read delivers what is
   * left up to `n`, a write stores all of it or fails, a seek goes where it is
   * told if that is a byte of the blob.
   */
  datatype Op = ReadOp(n: nat, io: Io) | WriteOp(data: seq<Byte>, io: Io) | SeekOp(off: int, way: SeekDir)

  datatype Answer = Chunk(read: Ended<seq<Byte>>) | Count(written: Ended<int>) | At(position: Ended<int>)

  function Do(s: Stream, op: Op): (Stream, Answer)
    requires Valid(s)
  {
    match op
    case ReadOp(n, io) => var (t, e) := Read(s, n, io); (t, Chunk(e))
    case WriteOp(data, io) => var (t, e) := Write(s, data, |data|, io); (t, Count(e))
    case SeekOp(off, way) => var (t, e) := Seek(s, off, way); (t, At(e))
  }

  ghost predicate IoFails(io: Io) { io.Fails? && io.rv != SQLITE_OK }

  /** `data` put at the cursor, and the cursor after it. */
  ghost function Stored(s: Stream, data: seq<Byte>): (t: Stream)
    requires Valid(s) && s.pos + |data| <= |s.bytes|
    ensures Valid(t) && |t.bytes| == |s.bytes|
  {
    Stream(s.bytes[..s.pos] + data + s.bytes[s.pos + |data|..], s.pos + |data|)
  }

  ghost function Ideal(s: Stream, op: Op): (Stream, Answer)
    requires Valid(s)
  {
    match op
    case ReadOp(n, io) =>
      if IoFails(io) then (s, Chunk(SqliteError(io.rv)))
      else
        var end := Min(s.pos + n, |s.bytes|);
        (s.(pos := end), Chunk(Ok(s.bytes[s.pos..end])))
    case WriteOp(data, io) =>
      if s.pos + |data| > |s.bytes| then (s, Count(SqliteError(SQLITE_ERROR)))
      else if IoFails(io) then (s.(bytes := Written(s.bytes, data, s.pos, io)), Count(SqliteError(io.rv)))
      else (Stored(s, data), Count(Ok(|data|)))
    case SeekOp(off, Beg) => IdealSeek(s, off)
    case SeekOp(off, Cur) => IdealSeek(s, s.pos + off)
    case SeekOp(off, End) => IdealSeek(s, |s.bytes| + off - 1)
    case SeekOp(_, Other(_)) => (s, At(StreamFailure))
  }

  ghost function IdealSeek(s: Stream, target: int): (Stream, Answer) {
    if 0 <= target < |s.bytes| then (s.(pos := target), At(Ok(target))) else (s, At(StreamFailure))
  }

  /** Every call keeps the cursor inside the blob and the blob's length; a failing one keeps the position too. */
  lemma DoKeepsValid(s: Stream, op: Op)
    requires Valid(s)
    ensures Valid(Do(s, op).0) && |Do(s, op).0.bytes| == |s.bytes|
    ensures var (t, a) := Do(s, op);
            (match a case Chunk(e) => !e.Ok? case Count(e) => !e.Ok? case At(e) => !e.Ok?) ==> t.pos == s.pos
  {
  }

  /**
   * Where the narrowing conversions lose nothing, or what they make of the
   * argument is refused as well, or the transfer fails with the code of such a
   * refusal before it stores anything new.
   */
  ghost predicate Harmless(s: Stream, op: Op)
    requires Valid(s)
  {
    match op
    case ReadOp(_, _) => true
    case WriteOp(data, io) =>
      var limit := Narrow(|data|);
      |data| <= INT_MAX || !InBlob(|s.bytes|, limit, s.pos)
      || (IoFails(io) && io.rv == SQLITE_ERROR && Written(s.bytes, data[..limit], s.pos, io) == s.bytes)
    case SeekOp(off, Beg) => HarmlessTarget(s, off)
    case SeekOp(off, Cur) => HarmlessTarget(s, s.pos + off)
    case SeekOp(off, End) => HarmlessTarget(s, |s.bytes| + off - 1)
    case SeekOp(_, Other(_)) => true
  }

  ghost predicate HarmlessTarget(s: Stream, target: int) {
    FitsInt(target) || !(0 <= Narrow(target) < |s.bytes|)
  }

  /**
   * The machine agrees with the abstract stream exactly where narrowing is
   * harmless. In particular a read returns min(n, len - pos) bytes for every n,
   * and a seek whose target fits an int lands on it or is refused.
   */
  lemma RefinesIff(s: Stream, op: Op)
    requires Valid(s)
    ensures Do(s, op) == Ideal(s, op) <==> Harmless(s, op)
  {
    match op
    case ReadOp(n, io) =>
      NarrowFits(Min(n, INT_MAX));
    case WriteOp(data, io) =>
      if |data| <= INT_MAX {
        NarrowFits(|data|);
        assert data[..|data|] == data;
      }
    case SeekOp(off, way) =>
      if !way.Other? && FitsInt(Target(s, off, way)) {
        NarrowFits(Target(s, off, way));
      }
  }

  /** A write of 2^32 + 1 bytes at the start of a non-empty blob stores one byte and reports success. */
  lemma LongWriteIsShort(s: Stream, data: seq<Byte>)
    requires Valid(s) && s.pos == 0 && |s.bytes| > 0 && |data| == TWO_32 + 1
    ensures Do(s, WriteOp(data, Works)).1 == Count(Ok(1))
  {
    assert Narrow(|data|) == 1;
  }

  /** A seek to 2^32 lands at the first byte. */
  lemma FarSeekLandsAtStart(s: Stream)
    requires Valid(s) && |s.bytes| > 0
    ensures Do(s, SeekOp(TWO_32, Beg)) == (s.(pos := 0), At(Ok(0)))
    ensures Ideal(s, SeekOp(TWO_32, Beg)).1 == At(StreamFailure)
  {
  }

  /** Asking for the position by a relative seek of zero works unless the cursor is at the end. */
  lemma TellIff(s: Stream)
    requires Valid(s)
    ensures Do(s, SeekOp(0, Cur)) == (s, At(Ok(s.pos))) <==> s.pos < |s.bytes|
  {
    NarrowFits(s.pos);
  }

  /**
   * Where seeks land whose target fits an int: on `off` itself, `off` from the
   * cursor, or `off` from the last byte, if that is a byte of the blob, and
   * nowhere otherwise.
   */
  lemma SeekLands(s: Stream, off: int, n: int)
    requires Valid(s)
    ensures 0 <= off < |s.bytes| ==> Seek(s, off, Beg) == (s.(pos := off), Ok(off))
    ensures 0 <= s.pos + off < |s.bytes| ==> Seek(s, off, Cur) == (s.(pos := s.pos + off), Ok(s.pos + off))
    ensures 0 <= |s.bytes| + off - 1 < |s.bytes| ==>
              Seek(s, off, End) == (s.(pos := |s.bytes| + off - 1), Ok(|s.bytes| + off - 1))
    ensures FitsInt(off) && !(0 <= off < |s.bytes|) ==> Seek(s, off, Beg) == (s, StreamFailure)
    ensures FitsInt(s.pos + off) && !(0 <= s.pos + off < |s.bytes|) ==> Seek(s, off, Cur) == (s, StreamFailure)
    ensures FitsInt(|s.bytes| + off - 1) && !(0 <= |s.bytes| + off - 1 < |s.bytes|) ==>
              Seek(s, off, End) == (s, StreamFailure)
    ensures Seek(s, off, Other(n)) == (s, StreamFailure)
  {
    if FitsInt(off) {
      NarrowFits(off);
    }
    if FitsInt(s.pos + off) {
      NarrowFits(s.pos + off);
    }
    if FitsInt(|s.bytes| + off - 1) {
      NarrowFits(|s.bytes| + off - 1);
    }
  }

  /** A seek relative to the end as streams have it: offset 0 is the end itself. */
  ghost function UsualEndSeek(s: Stream, off: int): (Stream, Ended<int>) {
    var next := |s.bytes| + off;
    if 0 <= next <= |s.bytes| then (s.(pos := next), Ok(next)) else (s, StreamFailure)
  }

  /**
   * The seek relative to the end is that one if and only if the usual target is
   * outside of the stream and the code's own target does not come back into
   * the blob when it is narrowed.
   */
  lemma EndSeekIsUsualIff(s: Stream, off: int)
    requires Valid(s)
    ensures Seek(s, off, End) == UsualEndSeek(s, off) <==>
            (off < -|s.bytes| || off > 0) && !(0 <= Narrow(|s.bytes| + off - 1) < |s.bytes|)
  {
    if -|s.bytes| <= off <= 0 {
      NarrowFits(|s.bytes| + off - 1);
    }
  }

  // ----- runs -----------------------------------------------------------------

  function Run(s: Stream, ops: seq<Op>): (r: (Stream, seq<Answer>))
    requires Valid(s)
    ensures Valid(r.0) && |r.0.bytes| == |s.bytes| && |r.1| == |ops|
    decreases |ops|
  {
    if ops == [] then (s, [])
    else
      var (t, a) := Do(s, ops[0]);
      DoKeepsValid(s, ops[0]);
      var (u, rest) := Run(t, ops[1..]);
      (u, [a] + rest)
  }

  ghost function IdealRun(s: Stream, ops: seq<Op>): (Stream, seq<Answer>)
    requires Valid(s)
    decreases |ops|
  {
    if ops == [] then (s, [])
    else
      var (t, a) := Ideal(s, ops[0]);
      var (u, rest) := IdealRun(t, ops[1..]);
      (u, [a] + rest)
  }

  ghost predicate HarmlessRun(s: Stream, ops: seq<Op>)
    requires Valid(s)
    decreases |ops|
  {
    ops == [] || (Harmless(s, ops[0]) && (DoKeepsValid(s, ops[0]); HarmlessRun(Do(s, ops[0]).0, ops[1..])))
  }

  /** Any run of reads, writes and seeks, failing or not, is a run of the abstract stream. */
  lemma {:induction false} RunRefines(s: Stream, ops: seq<Op>)
    requires Valid(s) && HarmlessRun(s, ops)
    ensures Run(s, ops) == IdealRun(s, ops)
    decreases |ops|
  {
    if ops != [] {
      RefinesIff(s, ops[0]);
      DoKeepsValid(s, ops[0]);
      RunRefines(Do(s, ops[0]).0, ops[1..]);
    }
  }

  // ----- sequences of reads ---------------------------------------------------

  /** A working read of any non-negative size: the clamp and the cast lose nothing. */
  lemma ReadDelivers(s: Stream, n: nat)
    requires Valid(s)
    ensures var end := Min(s.pos + n, |s.bytes|);
            Read(s, n, Works) == (s.(pos := end), Ok(s.bytes[s.pos..end]))
  {
    NarrowFits(Min(n, INT_MAX));
  }

  /** A working read: the stream after it, and the bytes. */
  function ReadOn(s: Stream, n: nat): (r: (Stream, seq<Byte>))
    requires Valid(s)
    ensures Valid(r.0) && |r.0.bytes| == |s.bytes|
  {
    var (t, e) := Read(s, n, Works);
    ReadDelivers(s, n);
    (t, if e.Ok? then e.value else [])
  }

  /** The chunks of working reads of the given sizes, concatenated. */
  function Chunks(s: Stream, sizes: seq<nat>): seq<Byte>
    requires Valid(s)
    decreases |sizes|
  {
    if sizes == [] then [] else ReadOn(s, sizes[0]).1 + Chunks(ReadOn(s, sizes[0]).0, sizes[1..])
  }

  /** The stream after them. */
  function AfterReads(s: Stream, sizes: seq<nat>): (t: Stream)
    requires Valid(s)
    ensures Valid(t)
    decreases |sizes|
  {
    if sizes == [] then s else AfterReads(ReadOn(s, sizes[0]).0, sizes[1..])
  }

  function Sum(sizes: seq<nat>): nat {
    if sizes == [] then 0 else sizes[0] + Sum(sizes[1..])
  }

  /** Where reads of `total` bytes end, and what they deliver. */
  function Reach(s: Stream, total: nat): (t: Stream)
    requires Valid(s)
    ensures Valid(t) && t.bytes == s.bytes && s.pos <= t.pos
  {
    s.(pos := Min(s.pos + total, |s.bytes|))
  }

  function Span(s: Stream, total: nat): seq<Byte>
    requires Valid(s)
  {
    s.bytes[s.pos..Reach(s, total).pos]
  }

  lemma ReadOnReaches(s: Stream, n: nat)
    requires Valid(s)
    ensures ReadOn(s, n) == (Reach(s, n), Span(s, n))
  {
    ReadDelivers(s, n);
  }

  lemma SpansJoin(s: Stream, n: nat, m: nat)
    requires Valid(s)
    ensures Reach(Reach(s, n), m) == Reach(s, n + m)
    ensures Span(s, n) + Span(Reach(s, n), m) == Span(s, n + m)
  {
  }

  /** Successive reads deliver the bytes of the blob without gap or overlap, whatever the sizes asked for. */
  lemma {:induction false} ChunksConcatenate(s: Stream, sizes: seq<nat>)
    requires Valid(s)
    ensures AfterReads(s, sizes) == Reach(s, Sum(sizes)) && Chunks(s, sizes) == Span(s, Sum(sizes))
    decreases |sizes|
  {
    if sizes != [] {
      ReadOnReaches(s, sizes[0]);
      ChunksConcatenate(Reach(s, sizes[0]), sizes[1..]);
      SpansJoin(s, sizes[0], Sum(sizes[1..]));
    }
  }

  /** Reads that ask for no less than what is left reach the end and deliver the whole suffix. */
  lemma EnoughReadsReachTheEnd(s: Stream, sizes: seq<nat>)
    requires Valid(s) && Sum(sizes) >= |s.bytes| - s.pos
    ensures AfterReads(s, sizes) == s.(pos := |s.bytes|) && Chunks(s, sizes) == s.bytes[s.pos..]
  {
    ChunksConcatenate(s, sizes);
    LongSpanIsSuffix(s, Sum(sizes));
  }

  lemma LongSpanIsSuffix(s: Stream, total: nat)
    requires Valid(s) && total >= |s.bytes| - s.pos
    ensures Reach(s, total) == s.(pos := |s.bytes|) && Span(s, total) == s.bytes[s.pos..]
  {
  }

  /**
   * Reads of positive size move forward until the end is reached, so as many
   * reads as there are bytes left reach it and deliver the whole suffix.
   */
  lemma ReadsReachTheEnd(s: Stream, sizes: seq<nat>)
    requires Valid(s) && |sizes| >= |s.bytes| - s.pos && forall i :: 0 <= i < |sizes| ==> sizes[i] > 0
    ensures AfterReads(s, sizes) == s.(pos := |s.bytes|) && Chunks(s, sizes) == s.bytes[s.pos..]
  {
    SumOfPositive(sizes);
    EnoughReadsReachTheEnd(s, sizes);
  }

  lemma {:induction false} SumOfPositive(sizes: seq<nat>)
    requires forall i :: 0 <= i < |sizes| ==> sizes[i] > 0
    ensures Sum(sizes) >= |sizes|
  {
    if sizes != [] {
      SumOfPositive(sizes[1..]);
    }
  }

  // ----- round trip -----------------------------------------------------------

  /**
   * Writing k > 0 bytes, seeking back by k and reading k bytes in pieces of any
   * sizes gives the bytes back, restores the position after the write, and
   * leaves every other byte of the blob as it was.
   */
  lemma WriteSeekReadRoundTrip(s: Stream, data: seq<Byte>, sizes: seq<nat>)
    requires Valid(s) && 0 < |data| <= INT_MAX && Sum(sizes) == |data|
    requires Do(s, WriteOp(data, Works)).1 == Count(Ok(|data|))
    ensures var t := Do(s, WriteOp(data, Works)).0;
            Valid(t) && t.bytes == s.bytes[..s.pos] + data + s.bytes[s.pos + |data|..]
            && Seek(t, -|data|, Cur) == (t.(pos := s.pos), Ok(s.pos))
            && AfterReads(t.(pos := s.pos), sizes) == t && Chunks(t.(pos := s.pos), sizes) == data
  {
    WriteStores(s, data);
    SeekBack(s, data);
    StoredSpan(s, data);
    ChunksConcatenate(Stored(s, data).(pos := s.pos), sizes);
  }

  lemma WriteStores(s: Stream, data: seq<Byte>)
    requires Valid(s) && |data| <= INT_MAX && Do(s, WriteOp(data, Works)).1 == Count(Ok(|data|))
    ensures s.pos + |data| <= |s.bytes| && Do(s, WriteOp(data, Works)).0 == Stored(s, data)
  {
    RefinesIff(s, WriteOp(data, Works));
  }

  lemma SeekBack(s: Stream, data: seq<Byte>)
    requires Valid(s) && 0 < |data| && s.pos + |data| <= |s.bytes|
    ensures Seek(Stored(s, data), -|data|, Cur) == (Stored(s, data).(pos := s.pos), Ok(s.pos))
  {
    NarrowFits(s.pos);
  }

  lemma StoredSpan(s: Stream, data: seq<Byte>)
    requires Valid(s) && s.pos + |data| <= |s.bytes|
    ensures var t := Stored(s, data).(pos := s.pos);
            Reach(t, |data|) == Stored(s, data) && Span(t, |data|) == data
  {
  }
}
