/** The readers and writers the protocol runs on: FIFO byte streams that may be cut up in
    any way. */
module ByteStreams {

  newtype byte = x: int | 0 <= x < 256

  /** What a call returns beside its result. */
  datatype Error = Nil | EOF | UnexpectedEOF | Overflow | BadFrame | BadVersion | BadPortID | ClosedPipe | WriteFailed

  /** An incoming stream; `pending` is everything it still has to give. */
  class Source {
    var pending: seq<byte>

    constructor (bytes: seq<byte>)
      ensures pending == bytes
    {
      pending := bytes;
    }

    /** Up to k bytes, as many as the stream likes to give at a time but at least one while
        there is one. The end may be reported with the last bytes or after them. */
    method Read(k: nat) returns (chunk: seq<byte>, err: Error)
      modifies this
      ensures old(pending) == chunk + pending && |chunk| <= k
      ensures err == Nil || (err == EOF && pending == [])
      ensures k > 0 && chunk == [] ==> err == EOF
    {
      var most := if k < |pending| then k else |pending|;
      var n: nat :| n <= most && (most > 0 ==> n > 0);
      chunk := pending[..n];
      pending := pending[n..];
      var now: bool := *;
      err := if pending == [] && (now || n == 0) then EOF else Nil;
    }

    /** Exactly one byte, by io.ReadFull into a one-byte buffer. */
    method ReadByte() returns (b: byte, err: Error)
      modifies this
      ensures old(pending) == [] ==> err == EOF && pending == []
      ensures old(pending) != [] ==> err == Nil && b == old(pending)[0] && pending == old(pending)[1..]
    {
      var chunk, e := Read(1);
      if |chunk| == 1 {
        b, err := chunk[0], Nil;
      } else {
        b, err := 0, e;
      }
    }
  }

  /** An outgoing stream; `written` is everything it took. */
  class Sink {
    var written: seq<byte>

    constructor ()
      ensures written == []
    {
      written := [];
    }

    /** Takes all of buf, or fails having taken a part of it. */
    method Write(buf: seq<byte>) returns (err: Error)
      modifies this
      ensures err == Nil || err == WriteFailed
      ensures err == Nil ==> written == old(written) + buf
      ensures old(written) <= written <= old(written) + buf
    {
      var fails: bool := *;
      var n: nat :| n <= |buf| && (!fails ==> n == |buf|);
      written := written + buf[..n];
      err := if fails then WriteFailed else Nil;
    }
  }
}
