/** The byte source that both scanners read from.

    The scanners call `Read` on a buffered reader with a fresh buffer of
    `ChunkSize` bytes until the reader reports the end of the stream or an
    error. The model replaces the reader by the finite sequence of results
    its `Read` calls return, in order; once that sequence is used up, every
    further call is taken to return zero bytes together with end-of-file.
 */
module Stream {

  newtype byte = x: int | 0 <= x < 256

  /** The buffer size of the read loop. It decides only how the bytes are
      split into chunks, never what is counted (see `ChunkingInvariance`). */
  const ChunkSize: nat := 1024

  /** The error value a `Read` call returns besides its byte count. */
  datatype Status = Ok | Eof | Failed(reason: string)

  /** One `Read` call: the `n` bytes it filled in and the error it returned. */
  datatype Read = Read(data: seq<byte>, status: Status)

  /** How the read loop ends: at the end of the stream, with every byte that
      was handed to the byte loop, or at a read error, with the bytes handed
      to the byte loop before it. */
  datatype Outcome = Finished(bytes: seq<byte>) | Broken(bytes: seq<byte>, reason: string)

  function Prepend(prefix: seq<byte>, o: Outcome): (r: Outcome)
    ensures r.Finished? == o.Finished? && r.bytes == prefix + o.bytes
    ensures r.Broken? ==> o.Broken? && r.reason == o.reason
  {
    match o
    case Finished(b) => Finished(prefix + b)
    case Broken(b, why) => Broken(prefix + b, why)
  }

  /** The read loop's control flow over a sequence of `Read` calls: an
      error other than end-of-file stops the loop whatever the byte count; a
      call that returns no bytes ends the stream, with or without
      end-of-file; otherwise the bytes are scanned and the loop reads again,
      even when end-of-file came with them. */
  function Drain(calls: seq<Read>): Outcome
  {
    if calls == [] then Finished([])
    else if calls[0].status.Failed? then Broken([], calls[0].status.reason)
    else if |calls[0].data| == 0 then Finished([])
    else Prepend(calls[0].data, Drain(calls[1..]))
  }

  /** The loop hands on the bytes the calls returned, in order, up to where
      it stops, and no other byte; it ends normally exactly when it stops
      before any failed call, and a read error it reports is the error of
      one of the calls. */
  lemma {:induction false} DrainBounds(calls: seq<Read>)
    ensures Drain(calls).bytes <= Concat(calls)
    ensures |Drain(calls).bytes| <= |Concat(calls)|
    ensures (forall i :: 0 <= i < |calls| ==> !calls[i].status.Failed?) ==> Drain(calls).Finished?
    ensures Drain(calls).Broken? ==>
              exists i :: 0 <= i < |calls| && calls[i].status.Failed? && calls[i].status.reason == Drain(calls).reason
  {
    if calls != [] && !calls[0].status.Failed? && |calls[0].data| != 0 {
      var rest := calls[1..];
      DrainBounds(rest);
      assert forall i :: 1 <= i < |calls| ==> rest[i - 1] == calls[i];
      if Drain(calls).Broken? {
        var j :| 0 <= j < |rest| && rest[j].status.Failed? && rest[j].status.reason == Drain(rest).reason;
        assert calls[j + 1] == rest[j];
      }
    }
  }

  /** Calls that neither fail nor come back empty hand on all their bytes,
      in order, and the loop goes on after them. */
  lemma {:induction false} DrainBytes(calls: seq<Read>, k: nat)
    requires k <= |calls|
    requires forall i :: 0 <= i < k ==> !calls[i].status.Failed? && |calls[i].data| > 0
    ensures Drain(calls) == Prepend(Concat(calls[..k]), Drain(calls[k..]))
  {
    if k > 0 {
      DrainBytes(calls[1..], k - 1);
      assert calls[1..][..k - 1] == calls[..k][1..];
      assert calls[1..][k - 1..] == calls[k..];
      PrependPrepend(calls[0].data, Concat(calls[..k][1..]), Drain(calls[k..]));
    } else {
      assert calls[k..] == calls;
    }
  }

  /** The bytes of a sequence of calls, one after the other. */
  function Concat(calls: seq<Read>): seq<byte>
  {
    if calls == [] then [] else calls[0].data + Concat(calls[1..])
  }

  /** The read loop from the `i`-th call on. */
  lemma DrainFrom(calls: seq<Read>, i: nat)
    requires i < |calls|
    ensures Drain(calls[i..])
         == if calls[i].status.Failed? then Broken([], calls[i].status.reason)
            else if |calls[i].data| == 0 then Finished([])
            else Prepend(calls[i].data, Drain(calls[i + 1..]))
  {
    assert calls[i..][1..] == calls[i + 1..];
  }

  lemma PrependPrepend(a: seq<byte>, b: seq<byte>, o: Outcome)
    ensures Prepend(a, Prepend(b, o)) == Prepend(a + b, o)
  {
  }

  /** A reader that hands out `bytes` in chunks of `size` bytes (the last one
      possibly shorter), reporting end-of-file with the last chunk. */
  function Chunked(bytes: seq<byte>, size: nat): (calls: seq<Read>)
    requires size > 0
    ensures forall i :: 0 <= i < |calls| ==> 0 < |calls[i].data| <= size
    decreases |bytes|
  {
    if |bytes| == 0 then []
    else if |bytes| <= size then [Read(bytes, Eof)]
    else [Read(bytes[..size], Ok)] + Chunked(bytes[size..], size)
  }

  /** However the bytes are chunked, the read loop sees exactly those bytes
      and ends normally. */
  lemma {:induction false} DrainChunked(bytes: seq<byte>, size: nat)
    requires size > 0
    ensures Drain(Chunked(bytes, size)) == Finished(bytes)
    decreases |bytes|
  {
    if |bytes| == 0 {
    } else if |bytes| <= size {
      var calls := Chunked(bytes, size);
      assert calls[1..] == [];
    } else {
      var calls := Chunked(bytes, size);
      assert calls[1..] == Chunked(bytes[size..], size);
      DrainChunked(bytes[size..], size);
      assert bytes[..size] + bytes[size..] == bytes;
    }
  }
}
