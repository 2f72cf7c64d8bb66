/** The stream header and the one-byte ack that precede the framed payload. */
module StreamHeader {
  import opened ByteStreams
  import opened Outcomes
  import Varint

  const STREAM_VERSION: byte := 2

  const ACK_OK: byte := 0
  const ACK_PORT_NOT_ALLOWED: byte := 1
  const ACK_DIAL_FAILED: byte := 2
  const ACK_REJECTED: byte := 3

  function AckResult(status: byte): Label {
    if status == ACK_OK then OK
    else if status == ACK_PORT_NOT_ALLOWED then NotAllowed
    else if status == ACK_DIAL_FAILED then DialFailed
    else Rejected
  }

  /** What WriteStreamHeader sends. */
  function Header(port: nat): seq<byte> {
    [STREAM_VERSION] + Varint.Encode(port)
  }

  datatype Parsed = Port(port: nat, rest: seq<byte>) | Refused(err: Error, rest: seq<byte>)

  /** What ReadStreamHeader makes of a stream, and what it leaves unread. */
  function Parse(bs: seq<byte>): Parsed {
    if bs == [] then Refused(EOF, [])
    else if bs[0] != STREAM_VERSION then Refused(BadVersion, bs[1..])
    else
      match Varint.Decode(bs[1..], 0)
      case Short(started) => Refused(if started then UnexpectedEOF else EOF, [])
      case TooBig(rest) => Refused(Overflow, rest)
      case Value(n, rest) => if n < 1 || n > 65535 then Refused(BadPortID, rest) else Port(n, rest)
  }

  /** Reading the header back gives the port and leaves the payload untouched. */
  lemma HeaderRoundTrip(port: nat, payload: seq<byte>)
    requires 1 <= port <= 65535
    ensures Parse(Header(port) + payload) == Port(port, payload)
  {
    var bs := Header(port) + payload;
    assert bs[1..] == Varint.Encode(port) + payload;
    Varint.RoundTrip(port, payload);
  }

  /** The header reader accepts exactly the version byte followed by a LEB128 form of a
      number in 1..65535, and stops right behind it. */
  lemma ParseExactly(bs: seq<byte>, port: nat, rest: seq<byte>)
    ensures Parse(bs) == Port(port, rest) <==>
              1 <= port <= 65535
              && exists gs :: Varint.IsForm(gs, 0) && bs == [STREAM_VERSION] + gs + rest && port == Varint.FormValue(gs)
  {
    if Parse(bs) == Port(port, rest) {
      Varint.DecodeExactly(bs[1..], port, rest);
      var gs :| Varint.IsForm(gs, 0) && bs[1..] == gs + rest && port == Varint.FormValue(gs);
      assert bs == [STREAM_VERSION] + gs + rest;
    }
    if 1 <= port <= 65535 {
      forall gs | Varint.IsForm(gs, 0) && bs == [STREAM_VERSION] + gs + rest && port == Varint.FormValue(gs)
        ensures Parse(bs) == Port(port, rest)
      {
        assert bs[1..] == gs + rest;
        Varint.DecodeExactly(bs[1..], port, rest);
      }
    }
  }

  /** Each refusal has its reason: nothing there or nothing behind the version byte, another
      version, a number that was cut or does not end in time, or one out of range. */
  lemma RefusedExactly(bs: seq<byte>)
    requires Parse(bs).Refused?
    ensures Parse(bs).err == EOF <==> bs == [] || bs == [2]
    ensures Parse(bs).err == BadVersion <==> bs != [] && bs[0] != 2
    ensures Parse(bs).err == UnexpectedEOF <==>
              2 <= |bs| <= 10 && bs[0] == 2 && forall j | 0 <= j < |bs| - 1 :: bs[1..][j] >= 128
    ensures Parse(bs).err == Overflow <==> |bs| >= 11 && bs[0] == 2 && Varint.Overlong(bs[1..][..10])
    ensures Parse(bs).err in {EOF, BadVersion, UnexpectedEOF, Overflow, BadPortID}
  {
    if bs != [] { Varint.FailsExactly(bs[1..], 0); }
  }

  lemma OutOfRangeExactly(bs: seq<byte>)
    requires bs != [] && bs[0] == 2
    ensures Parse(bs).Refused? && Parse(bs).err == BadPortID <==>
              exists gs :: Varint.IsForm(gs, 0) && gs <= bs[1..] && !(1 <= Varint.FormValue(gs) <= 65535)
  {
    var tail := bs[1..];
    if Varint.Decode(tail, 0).Value? {
      var gs := Varint.DecodedForm(tail, 0);
    }
    forall gs | Varint.IsForm(gs, 0) && gs <= tail
      ensures Varint.Decode(tail, 0) == Varint.Value(Varint.FormValue(gs), tail[|gs|..])
    {
      assert tail == gs + tail[|gs|..];
      Varint.FormDecodes(gs, tail[|gs|..], 0);
    }
  }

  /** What a refusal leaves unread: everything behind the bytes that had to be looked at. */
  lemma RefusedLeaves(bs: seq<byte>)
    requires Parse(bs).Refused?
    ensures Parse(bs).err == BadVersion ==> Parse(bs).rest == bs[1..]
    ensures Parse(bs).err in {EOF, UnexpectedEOF} ==> Parse(bs).rest == []
    ensures Parse(bs).err == Overflow ==> |bs| >= 11 && Parse(bs).rest == bs[1..][10..]
    ensures Parse(bs).err == BadPortID ==> exists gs :: Varint.IsForm(gs, 0) && bs == [2] + gs + Parse(bs).rest
  {
    if bs != [] {
      Varint.FailsExactly(bs[1..], 0);
      if bs[0] == 2 && Varint.Decode(bs[1..], 0).Value? {
        var gs := Varint.DecodedForm(bs[1..], 0);
        assert bs == [2] + gs + Parse(bs).rest;
      }
    }
  }

  /** What some headers look like on the wire. */
  lemma OnTheWire()
    ensures Header(80) == [2, 80] && Header(443) == [2, 187, 3] && Header(65535) == [2, 255, 255, 3]
  {
    Varint.OnTheWire();
    assert Varint.Encode(443) == [187] + Varint.Encode(3);
  }

  /** The label forward records for each answer byte. */
  lemma LabelOfAck(status: byte)
    ensures status == 0 ==> AckResult(status) == OK
    ensures status == 1 ==> AckResult(status) == NotAllowed
    ensures status == 2 ==> AckResult(status) == DialFailed
    ensures status >= 3 ==> AckResult(status) == Rejected
  {
  }

  method WriteStreamHeader(w: Sink, port: nat) returns (err: Error)
    modifies w
    ensures err == Nil ==> w.written == old(w.written) + Header(port)
    ensures old(w.written) <= w.written <= old(w.written) + Header(port)
  {
    var buf := Varint.AppendUvarint([STREAM_VERSION], port);
    err := w.Write(buf);
  }

  method ReadStreamHeader(r: Source) returns (port: nat, err: Error)
    modifies r
    ensures match Parse(old(r.pending))
            case Port(p, rest) => err == Nil && port == p && r.pending == rest
            case Refused(e, rest) => err == e && err != Nil && r.pending == rest
  {
    var ver, e := r.ReadByte();
    if e != Nil {
      return 0, e;
    }
    if ver != STREAM_VERSION {
      return 0, BadVersion;
    }
    var id, e2 := Varint.ReadUvarint(r);
    if e2 != Nil {
      return 0, e2;
    }
    if id < 1 || id > 65535 {
      return 0, BadPortID;
    }
    return id, Nil;
  }

  method WriteAck(w: Sink, status: byte) returns (err: Error)
    modifies w
    ensures err == Nil ==> w.written == old(w.written) + [status]
    ensures old(w.written) <= w.written <= old(w.written) + [status]
  {
    err := w.Write([status]);
  }

  method ReadAck(r: Source) returns (status: byte, err: Error)
    modifies r
    ensures old(r.pending) == [] ==> err == EOF
    ensures old(r.pending) != [] ==> err == Nil && status == old(r.pending)[0] && r.pending == old(r.pending)[1..]
  {
    status, err := r.ReadByte();
  }

  /** Opening a stream: one end sends the header with payload right behind it, the other reads
      the header and answers, and the first reads the answer. */
  method Handshake(port: nat, payload: seq<byte>, status: byte, answer: seq<byte>)
    returns (sent: bool, got: nat, result: Label, up: Source, down: Source)
    requires 1 <= port <= 65535
    ensures sent ==> got == port && result == AckResult(status) && up.pending == payload && down.pending == answer
  {
    var there := new Sink();
    var back := new Sink();
    var e := WriteStreamHeader(there, port);
    assert [] + Header(port) == Header(port);
    up := new Source(there.written + payload);
    HeaderRoundTrip(port, payload);
    var e2;
    got, e2 := ReadStreamHeader(up);
    var e3 := WriteAck(back, status);
    assert [] + [status] == [status] && ([status] + answer)[1..] == answer;
    down := new Source(back.written + answer);
    var read, e4 := ReadAck(down);
    sent := e == Nil && e3 == Nil;
    result := AckResult(read);
  }
}
