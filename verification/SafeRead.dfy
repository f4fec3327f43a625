/**
 Reading a file in chunks through one reused buffer, and hashing it on the way
 (shared_library/src/safe_read.rs, client_core/src/file_hasher.rs).
 */
module SafeRead {
  import opened Wrappers
  import opened MachineInts
  import opened Bytes
  import opened ServerProtocol

  /** How the operating system answers a read: with an error, or with up to that many bytes. */
  datatype Answer = Fails | Short(count: nat)

  /** At end of file a read gives nothing; before it, at least one byte and no more than fit. */
  function Granted(wish: nat, room: nat, available: nat): (n: nat)
    ensures n <= room && n <= available
    ensures n == 0 <==> room == 0 || available == 0
  {
    var most := Min(room, available);
    if most == 0 then 0 else if wish == 0 then 1 else Min(wish, most)
  }

  datatype Chunk = EndOfFile | Bytes(count: nat) | ReadError

  class SafeFileReader {
    /** What the file still holds; it may be more or less than its metadata declared. */
    var pending: Blob
    /** What is left of the declared size: the limit of `Take`. */
    var limit: nat
    /** The chunk buffer, rewritten at each step. */
    const buffer: array<byte>
    /** The answer to the k-th read, and the number of reads so far. */
    const schedule: nat -> Answer
    var calls: nat

    constructor (file: Blob, declared: nat, chunkSize: nat, schedule: nat -> Answer)
      ensures pending == file && limit == declared && buffer.Length == chunkSize && fresh(buffer)
      ensures this.schedule == schedule && calls == 0
    {
      pending, limit, calls := file, declared, 0;
      buffer := new byte[chunkSize](_ => 0);
      this.schedule := schedule;
    }

    /** The bytes this reader may still deliver. */
    function Remaining(): (bs: Blob)
      reads this
    {
      pending[..Min(limit, |pending|)]
    }

    /** `Take::read` into the buffer. */
    method NextChunk() returns (chunk: Chunk)
      modifies this, buffer
      ensures calls == old(calls) || calls == old(calls) + 1
      ensures chunk.EndOfFile? ==> (buffer.Length == 0 || old(Remaining()) == []) && Remaining() == old(Remaining())
      ensures chunk.Bytes? ==>
                && 0 < chunk.count <= buffer.Length && chunk.count <= |old(Remaining())|
                && buffer[..chunk.count] == old(Remaining())[..chunk.count]
                && Remaining() == old(Remaining())[chunk.count..]
      ensures chunk.ReadError? ==>
                Remaining() == old(Remaining()) && calls == old(calls) + 1 && schedule(old(calls)) == Fails
    {
      if limit == 0 {
        return EndOfFile;
      }
      var room := Min(limit, buffer.Length);
      var answer := schedule(calls);
      calls := calls + 1;
      if answer.Fails? {
        return ReadError;
      }
      var n := Granted(answer.count, room, |pending|);
      forall i | 0 <= i < n {
        buffer[i] := pending[i];
      }
      assert buffer[..n] == pending[..n];
      ghost var before := Remaining();
      pending, limit := pending[n..], limit - n;
      assert Remaining() == before[n..];
      assert buffer[..n] == before[..n];
      chunk := if n == 0 then EndOfFile else Bytes(n);
    }

    /**
     Reads everything. However the reads are split, the result is the file's contents up to the
     declared size; only a failing read can prevent it.
     */
    method SafeReadAll() returns (r: Option<Blob>)
      modifies this, buffer
      ensures r.Some? ==> r.value == if buffer.Length == 0 then [] else old(Remaining())
      ensures r.Some? && buffer.Length > 0 ==> Remaining() == []
      ensures r.None? ==> exists k :: old(calls) <= k < calls && schedule(k) == Fails
    {
      var full: Blob := [];
      var chunk := NextChunk();
      while !chunk.EndOfFile?
        invariant chunk.ReadError? ==> exists k :: old(calls) <= k < calls && schedule(k) == Fails
        invariant chunk.Bytes? ==>
                    && chunk.count <= buffer.Length
                    && full + buffer[..chunk.count] + Remaining() == old(Remaining())
        invariant chunk.EndOfFile? ==>
                    (buffer.Length == 0 && full == []) || (full == old(Remaining()) && Remaining() == [])
        invariant old(calls) <= calls && (buffer.Length == 0 ==> full == [] && !chunk.Bytes?)
        decreases !chunk.ReadError?, |Remaining()| + (if chunk.EndOfFile? then 0 else 1)
      {
        if chunk.ReadError? {
          return None;
        }
        ghost var rest := Remaining();
        full := full + buffer[..chunk.count];
        assert full + rest == old(Remaining());
        chunk := NextChunk();
        if chunk.Bytes? {
          assert rest == rest[..chunk.count] + rest[chunk.count..];
        }
      }
      r := Some(full);
    }
  }

  /** The digest of a file equals the digest of its contents read in one piece. */
  method HashFile(crypto: Crypto, reader: SafeFileReader) returns (r: Option<Sha256Hash>)
    modifies reader, reader.buffer
    ensures r.Some? ==> r.value == crypto.sha256(if reader.buffer.Length == 0 then [] else old(reader.Remaining()))
    ensures r.None? ==> exists k :: old(reader.calls) <= k < reader.calls && reader.schedule(k) == Fails
  {
    var hasher := new Sha256();
    var chunk := reader.NextChunk();
    while !chunk.EndOfFile?
      invariant fresh(hasher)
      invariant chunk.ReadError? ==> exists k :: old(reader.calls) <= k < reader.calls && reader.schedule(k) == Fails
      invariant chunk.Bytes? ==>
                  && chunk.count <= reader.buffer.Length
                  && hasher.absorbed + reader.buffer[..chunk.count] + reader.Remaining() == old(reader.Remaining())
      invariant chunk.EndOfFile? ==>
                  (reader.buffer.Length == 0 && hasher.absorbed == []) || hasher.absorbed == old(reader.Remaining())
      invariant old(reader.calls) <= reader.calls
      invariant reader.buffer.Length == 0 ==> hasher.absorbed == [] && !chunk.Bytes?
      decreases !chunk.ReadError?, |reader.Remaining()| + (if chunk.EndOfFile? then 0 else 1)
    {
      if chunk.ReadError? {
        return None;
      }
      ghost var rest := reader.Remaining();
      hasher.Update(reader.buffer[..chunk.count]);
      assert hasher.absorbed + rest == old(reader.Remaining());
      chunk := reader.NextChunk();
      if chunk.Bytes? {
        assert rest == rest[..chunk.count] + rest[chunk.count..];
      }
    }
    var digest := hasher.Finalize(crypto);
    r := Some(digest);
  }

  /** Two readers of one file, whatever their chunk sizes and read schedules, agree whenever both succeed. */
  method SplittingDoesNotMatter(crypto: Crypto, file: Blob, declared: nat, size1: nat, size2: nat,
                                s1: nat -> Answer, s2: nat -> Answer)
    returns (whole: Option<Blob>, digest: Option<Sha256Hash>)
    requires size1 > 0 && size2 > 0
    ensures whole.Some? ==> whole.value == file[..Min(declared, |file|)]
    ensures digest.Some? ==> digest.value == crypto.sha256(file[..Min(declared, |file|)])
    ensures (forall k :: s1(k) != Fails) ==> whole.Some?
    ensures (forall k :: s2(k) != Fails) ==> digest.Some?
  {
    var first := new SafeFileReader(file, declared, size1, s1);
    whole := first.SafeReadAll();
    var second := new SafeFileReader(file, declared, size2, s2);
    digest := HashFile(crypto, second);
  }
}
