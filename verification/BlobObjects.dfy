/** The blob_source class over SQLite's incremental blob I/O, proved against Blobs. */
module BlobObjects {
  import opened Types
  import opened Blobs

  /** An open sqlite3_blob. */
  class SqliteBlob {
    const bytes: array<Byte>

    constructor (bytes: array<Byte>)
      ensures this.bytes == bytes
    {
      this.bytes := bytes;
    }

    /** sqlite3_blob_read; a failing one may leave anything in the first bytes of the buffer. */
    method Read(z: array<Byte>, n: int, offset: int, io: Io) returns (rv: int)
      requires InBlob(bytes.Length, n, offset) ==> n <= z.Length
      requires z != bytes
      modifies z
      ensures rv == IoRv(bytes.Length, n, offset, io)
      ensures rv == SQLITE_OK ==> z[..n] == bytes[offset..offset + n] && z[n..] == old(z[n..])
    {
      rv := IoRv(bytes.Length, n, offset, io);
      if InBlob(bytes.Length, n, offset) {
        forall i | 0 <= i < n {
          z[i] := bytes[offset + i];
        }
      }
    }

    /** sqlite3_blob_write; a failing one may have stored a prefix. */
    method Write(z: array<Byte>, n: int, offset: int, io: Io) returns (rv: int)
      requires InBlob(bytes.Length, n, offset) ==> n <= z.Length
      requires z != bytes
      modifies bytes
      ensures rv == IoRv(bytes.Length, n, offset, io)
      ensures bytes[..] == if InBlob(bytes.Length, n, offset) then Written(old(bytes[..]), z[..n], offset, io)
                           else old(bytes[..])
    {
      rv := IoRv(bytes.Length, n, offset, io);
      if InBlob(bytes.Length, n, offset) {
        var m := Transferred(n, io);
        forall i | 0 <= i < m {
          bytes[offset + i] := z[i];
        }
        StoredIsWritten(old(bytes[..]), bytes[..], z[..n], offset, io);
      }
    }
  }

  /** Storing what is transferred of `data` at `offset`, and nothing else. */
  lemma StoredIsWritten(before: seq<Byte>, after: seq<Byte>, data: seq<Byte>, offset: nat, io: Io)
    requires |after| == |before| && InBlob(|before|, |data|, offset)
    requires forall i :: offset <= i < offset + Transferred(|data|, io) ==> after[i] == data[i - offset]
    requires forall i :: 0 <= i < offset || offset + Transferred(|data|, io) <= i < |before| ==> after[i] == before[i]
    ensures after == Written(before, data, offset, io)
  {
  }

  class BlobSource {
    const handle: SqliteBlob
    var pos: int
    const len: int

    ghost predicate Valid()
      reads this, handle.bytes
    {
      len == handle.bytes.Length && Blobs.Valid(View())
    }

    ghost function View(): Stream
      reads this, handle.bytes
    {
      Stream(handle.bytes[..], pos)
    }

    constructor (handle: SqliteBlob)
      requires handle.bytes.Length <= INT_MAX
      ensures Valid() && this.handle == handle && View() == Stream(handle.bytes[..], 0)
    {
      this.handle, pos, len := handle, 0, handle.bytes.Length;
    }

    method Read(s: array<Byte>, n: int, io: Io) returns (r: Ended<int>)
      requires Valid() && 0 <= n <= STREAM_MAX && n <= s.Length && s != handle.bytes
      modifies this`pos, s
      ensures Valid()
      ensures var (t, e) := Blobs.Read(old(View()), n, io);
              View() == t
              && (match e
                  case Ok(chunk) =>
                    r == Ok(|chunk|) && |chunk| <= s.Length
                    && s[..|chunk|] == chunk && s[|chunk|..] == old(s[|chunk|..])
                  case SqliteError(rv) => r == SqliteError(rv)
                  case StreamFailure => r == StreamFailure)
    {
      var clamped := Min(n, INT_MAX);
      var limit := Min(Narrow(clamped), len - pos);
      NarrowFits(clamped);
      var rv := handle.Read(s, limit, pos, io);
      if rv != SQLITE_OK {
        return SqliteError(rv);
      }
      pos := pos + limit;
      return Ok(limit);
    }

    method Write(s: array<Byte>, n: int, io: Io) returns (r: Ended<int>)
      requires Valid() && 0 <= n <= STREAM_MAX && n <= s.Length && s != handle.bytes
      modifies this`pos, handle.bytes
      ensures Valid()
      ensures (View(), r) == Blobs.Write(old(View()), s[..], n, io)
    {
      var limit := Narrow(n);
      ghost var before := View();
      assert InBlob(len, limit, pos) ==> limit <= n && s[..][..limit] == s[..limit];
      var rv := handle.Write(s, limit, pos, io);
      if rv != SQLITE_OK {
        return SqliteError(rv);
      }
      pos := pos + limit;
      return Ok(limit);
    }

    method Seek(off: int, way: SeekDir) returns (r: Ended<int>)
      requires Valid()
      modifies this`pos
      ensures Valid()
      ensures (View(), r) == Blobs.Seek(old(View()), off, way)
    {
      var next: int;
      match way {
        case Beg => next := Narrow(off);
        case Cur => next := Narrow(pos + off);
        case End => next := Narrow(len + off - 1);
        case Other(_) => return StreamFailure;
      }
      if next < 0 || next >= len {
        return StreamFailure;
      }
      pos := next;
      return Ok(pos);
    }
  }
}
