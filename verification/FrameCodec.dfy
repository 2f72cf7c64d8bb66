/** FrameWriter and FrameReader, on a byte stream that is cut up in any way. */
module FrameCodec {
  import opened ByteStreams
  import opened Frames
  import Varint

  class FrameWriter {
    const w: Sink
    const hdr: array<byte>  // scratch for a frame's header
    var buf: seq<byte>
    var eof: bool

    ghost predicate Valid()
      reads this
    {
      hdr.Length == 6
    }

    constructor (sink: Sink)
      ensures Valid() && w == sink && !eof && fresh(hdr)
    {
      w := sink;
      hdr := new byte[6](_ => 0);
      buf := [];
      eof := false;
    }

    /** One data frame, header and payload in a single write. hdr holds five length bytes,
        so PutUvarint panics from 2^35 bytes on. */
    method Write(p: seq<byte>) returns (n: nat, err: Error)
      requires Valid() && |p| < 0x8_0000_0000
      modifies this`buf, hdr, w
      ensures Valid()
      ensures p == [] ==> n == 0 && err == Nil && w.written == old(w.written)
      ensures p != [] && eof ==> n == 0 && err == ClosedPipe && w.written == old(w.written)
      ensures p != [] && !eof && err == Nil ==> n == |p| && w.written == old(w.written) + Frame(p)
      ensures p != [] && !eof && err != Nil ==> n == 0 && err == WriteFailed
      ensures old(w.written) <= w.written <= old(w.written) + Frame(p)
    {
      if |p| == 0 {
        return 0, Nil;
      }
      if eof {
        return 0, ClosedPipe;
      }
      hdr[0] := FRAME_DATA;
      Varint.EncodedLength(|p|);
      var len := Varint.PutUvarint(hdr, 1, |p|);
      assert hdr[..1 + len] == [FRAME_DATA] + Varint.Encode(|p|);
      buf := hdr[..1 + len];
      buf := buf + p;
      assert buf == Frame(p);
      err := w.Write(buf);
      n := if err == Nil then |p| else 0;
    }

    /** The end marker, once. */
    method CloseWrite() returns (err: Error)
      requires Valid()
      modifies this`eof, w
      ensures Valid() && eof
      ensures old(eof) ==> err == Nil && w.written == old(w.written)
      ensures !old(eof) && err == Nil ==> w.written == old(w.written) + [FRAME_EOF]
      ensures old(w.written) <= w.written <= old(w.written) + [FRAME_EOF]
      ensures err == Nil || err == WriteFailed
    {
      if eof {
        return Nil;
      }
      eof := true;
      err := w.Write([FRAME_EOF]);
    }
  }

  class FrameReader {
    const r: Source
    var remain: nat
    var eof: bool

    constructor (src: Source)
      ensures r == src && remain == 0 && !eof
    {
      r := src;
      remain := 0;
      eof := false;
    }

    /** The payload still to come, and how it ends. */
    ghost function Rest(): (seq<byte>, End)
      reads this, r
    {
      if eof then ([], Marker(r.pending)) else Decode(remain, r.pending)
    }

    /** At most k bytes of payload, in order; an error only when there is no more. Once the
        marker was read it is EOF forever, and not a byte after the marker is touched. */
    method Read(k: nat) returns (chunk: seq<byte>, err: Error)
      modifies this, r
      ensures |chunk| <= k
      ensures err == Nil ==> old(Rest()) == (chunk + Rest().0, Rest().1)
      ensures err == Nil && k > 0 ==> chunk != []
      ensures err != Nil ==> chunk == old(Rest()).0 && err == ErrorOf(old(Rest()).1)
      ensures err == EOF <==> err != Nil && old(Rest()).1 in {Boundary, AfterType, Marker(r.pending)}
      ensures err == UnexpectedEOF <==> err != Nil && old(Rest()).1 == MidFrame
      ensures err == BadFrame <==> err != Nil && old(Rest()).1 == Malformed
      ensures err == Overflow <==> err != Nil && old(Rest()).1 == TooLong
      ensures err != Nil && old(Rest()).1.Marker? ==> eof && Rest() == ([], old(Rest()).1)
      ensures old(eof) ==> err == EOF && chunk == [] && eof && r.pending == old(r.pending)
    {
      if eof {
        return [], EOF;
      }
      while remain == 0
        invariant !eof && Rest() == old(Rest())
        decreases remain == 0
      {
        err := ReadHeader();
        if err != Nil {
          return [], err;
        }
      }
      chunk, err := ReadPayload(k);
    }

    /** Type byte and length of the next frame. */
    method ReadHeader() returns (err: Error)
      requires !eof && remain == 0
      modifies this, r
      ensures err == Nil ==> !eof && remain > 0 && Rest() == old(Rest())
      ensures err != Nil ==> old(Rest()).0 == [] && err == ErrorOf(old(Rest()).1)
      ensures err != Nil && old(Rest()).1.Marker? ==> eof && Rest() == old(Rest())
    {
      ghost var bs := r.pending;
      var typ, e := r.ReadByte();
      if e != Nil {
        return e;
      }
      if typ == FRAME_EOF {
        eof := true;
        return EOF;
      } else if typ != FRAME_DATA {
        return BadFrame;
      }
      var n, e2 := Varint.ReadUvarint(r);
      if e2 != Nil {
        return e2;
      }
      if n == 0 || n > MAX_FRAME_LEN {
        return BadFrame;
      }
      remain := n;
      return Nil;
    }

    method ReadPayload(k: nat) returns (chunk: seq<byte>, err: Error)
      requires !eof && remain > 0
      modifies this, r
      ensures |chunk| <= k && !eof
      ensures err == Nil ==> old(Rest()) == (chunk + Rest().0, Rest().1) && (k > 0 ==> chunk != [])
      ensures err != Nil ==> chunk == old(Rest()).0 && err == ErrorOf(old(Rest()).1) && !old(Rest()).1.Marker?
    {
      ghost var bs, before := r.pending, remain;
      var most := if k > remain then remain else k;
      chunk, err := r.Read(most);
      TakeSome(before, chunk, r.pending);
      remain := remain - |chunk|;
      if err == EOF && remain > 0 {
        err := UnexpectedEOF;
      }
    }
  }

  /** io.Copy from a frame reader, with any buffer sizes: it ends with exactly the payload
      that was there and the error that was there. */
  method CopyAll(f: FrameReader) returns (data: seq<byte>, err: Error)
    modifies f, f.r
    ensures (data, err) == (old(f.Rest()).0, ErrorOf(old(f.Rest()).1))
    ensures old(f.Rest()).1.Marker? ==> f.eof && f.r.pending == old(f.Rest()).1.rest
  {
    data := [];
    Empty(f.Rest().0);
    while true
      invariant old(f.Rest()) == (data + f.Rest().0, f.Rest().1)
      decreases |f.Rest().0|
    {
      var k: nat :| k > 0;
      ghost var before := f.Rest();
      var chunk, e := f.Read(k);
      Assoc(data, chunk, f.Rest().0);
      data := data + chunk;
      if e != Nil {
        return data, e;
      }
    }
  }

  /** io.Copy into a frame writer; ws is what each Write of the copy gets. On the wire are
      `whole` full frames, and a part of the next one if its write failed. */
  method CopyFrames(fw: FrameWriter, ws: seq<seq<byte>>) returns (ok: bool, ghost whole: nat, ghost part: seq<byte>)
    requires fw.Valid() && !fw.eof
    requires forall p | p in ws :: |p| < 0x8_0000_0000
    modifies fw`buf, fw.hdr, fw.w
    ensures fw.Valid() && whole <= |ws| && part <= (if whole < |ws| then Frame(ws[whole]) else [])
    ensures fw.w.written == old(fw.w.written) + (FrameAll(ws[..whole]) + part)
    ensures ok ==> whole == |ws|
  {
    ghost var before := fw.w.written;
    Empty(before);
    for i := 0 to |ws|
      invariant fw.Valid() && fw.w.written == before + FrameAll(ws[..i])
    {
      ghost var so := fw.w.written;
      var n, err := fw.Write(ws[i]);
      FrameAllGrows(ws, i);
      if err != Nil {
        ok, whole, part := false, i, fw.w.written[|so|..];
        assert fw.w.written == so + part;
        Assoc(before, FrameAll(ws[..i]), part);
        return;
      }
      Empty(so);
      Assoc(before, FrameAll(ws[..i]), Frame(ws[i]));
    }
    ok, whole, part := true, |ws|, [];
    Empty(FrameAll(ws[..|ws|]));
  }

  /** And then CloseWrite, whether the copy failed or not: the marker is on the wire or not. */
  method CopyAndClose(fw: FrameWriter, ws: seq<seq<byte>>)
    returns (ok: bool, ghost whole: nat, ghost part: seq<byte>, ghost mark: seq<byte>)
    requires fw.Valid() && !fw.eof
    requires forall p | p in ws :: |p| < 0x8_0000_0000
    modifies fw, fw.hdr, fw.w
    ensures whole <= |ws| && part <= (if whole < |ws| then Frame(ws[whole]) else []) && mark <= [FRAME_EOF]
    ensures fw.w.written == old(fw.w.written) + (FrameAll(ws[..whole]) + part + mark)
    ensures ok ==> fw.w.written == old(fw.w.written) + (FrameAll(ws) + [FRAME_EOF])
  {
    ghost var before := fw.w.written;
    ok, whole, part := CopyFrames(fw, ws);
    ghost var sent := fw.w.written;
    var e := fw.CloseWrite();
    mark := fw.w.written[|sent|..];
    assert fw.w.written == sent + mark;
    Assoc(before, FrameAll(ws[..whole]) + part, mark);
    ok := ok && e == Nil;
    if ok {
      assert ws[..|ws|] == ws;
      Empty(FrameAll(ws));
    }
  }

  lemma {:induction false} FrameAllGrows(ws: seq<seq<byte>>, i: nat)
    requires i < |ws|
    ensures FrameAll(ws[..i + 1]) == FrameAll(ws[..i]) + Frame(ws[i])
    decreases |ws|
  {
    if i == 0 {
      assert ws[..1] == [ws[0]] && [ws[0]][1..] == [];
      Empty(Frame(ws[0]));
      assert FrameAll([ws[0]]) == Frame(ws[0]) + FrameAll([]);
    } else {
      FrameAllGrows(ws[1..], i - 1);
      assert ws[1..][..i] == ws[..i + 1][1..] && ws[1..][..i - 1] == ws[..i][1..];
      Assoc(Frame(ws[0]), FrameAll(ws[1..][..i - 1]), Frame(ws[i]));
    }
  }

  /** The whole trip: writes, CloseWrite, and reading it all back in chunks of any size from
      a stream that is cut up in any way and carries junk after the marker. */
  method WriteThenRead(ws: seq<seq<byte>>, junk: seq<byte>)
    returns (sent: bool, data: seq<byte>, err: Error, again: Error)
    requires forall p | p in ws :: |p| < 0x8_0000_0000
    ensures sent && (forall p | p in ws :: |p| <= MAX_FRAME_LEN) ==> data == Flatten(ws) && err == EOF && again == EOF
  {
    var sink := new Sink();
    var fw := new FrameWriter(sink);
    ghost var whole, part, mark;
    sent, whole, part, mark := CopyAndClose(fw, ws);
    Empty(FrameAll(ws) + [FRAME_EOF]);
    var source := new Source(sink.written + junk);
    var fr := new FrameReader(source);
    if forall p | p in ws :: |p| <= MAX_FRAME_LEN {
      FrameRoundTrip(ws, junk);
    }
    data, err := CopyAll(fr);
    var k: nat := *;
    var chunk;
    chunk, again := fr.Read(k);
  }

  /** The cut lies in the i-th frame, and behind its type byte. */
  ghost predicate CutIn(ws: seq<seq<byte>>, i: int, cut: nat) {
    0 <= i < |ws| && |FrameAll(ws[..i])| <= cut < |FrameAll(ws[..i])| + |Frame(ws[i])|
  }

  ghost predicate CutsFrame(ws: seq<seq<byte>>, i: int, cut: nat) {
    CutIn(ws, i, cut) && cut >= |FrameAll(ws[..i])| + 2
  }

  /** A stream of these writes and the marker, cut there. */
  function CutStream(ws: seq<seq<byte>>, cut: nat): seq<byte>
    requires cut <= |FrameAll(ws)| + 1
  {
    (FrameAll(ws) + [FRAME_EOF])[..cut]
  }

  ghost predicate Short(ws: seq<seq<byte>>) { forall w | w in ws :: |w| <= MAX_FRAME_LEN }

  lemma CutInFrame(ws: seq<seq<byte>>, i: nat, cut: nat)
    requires Short(ws) && CutIn(ws, i, cut) && cut <= |FrameAll(ws)| + 1
    ensures Decode(0, CutStream(ws, cut)).0 == Flatten(ws[..i]) + PartOf(ws[i], cut - |FrameAll(ws[..i])|)
    ensures Decode(0, CutStream(ws, cut)).1 in {Boundary, AfterType, MidFrame}
    ensures Decode(0, CutStream(ws, cut)).1 == MidFrame <==> CutsFrame(ws, i, cut)
  {
    Truncation(ws, i, cut - |FrameAll(ws[..i])|);
  }

  lemma CutInSome(ws: seq<seq<byte>>, cut: nat) returns (i: nat)
    requires cut < |FrameAll(ws)|
    ensures CutIn(ws, i, cut)
  {
    FrameAllIsJoined(ws);
    var k;
    i, k := WriteOfCut(Frame, ws, cut);
    FrameAllIsJoined(ws[..i]);
  }

  lemma CutBehindAll(ws: seq<seq<byte>>, cut: nat)
    requires Short(ws) && |FrameAll(ws)| <= cut <= |FrameAll(ws)| + 1
    ensures Decode(0, CutStream(ws, cut)) == (Flatten(ws), if cut == |FrameAll(ws)| then Boundary else Marker([]))
    ensures forall i :: !CutIn(ws, i, cut)
  {
    var all := FrameAll(ws);
    CutBehind(ws, cut > |all|);
    assert (all + [FRAME_EOF])[..|all|] == all + [] && (all + [FRAME_EOF])[..|all| + 1] == all + [FRAME_EOF];
    forall i: nat | i < |ws|
      ensures !CutIn(ws, i, cut)
    {
      if CutIn(ws, i, cut) { FrameEnds(ws, i); }
    }
  }

  lemma FrameEnds(ws: seq<seq<byte>>, i: nat)
    requires i < |ws|
    ensures |FrameAll(ws[..i])| + |Frame(ws[i])| <= |FrameAll(ws)|
  {
    FrameAllIsJoined(ws);
    FrameAllIsJoined(ws[..i]);
    if Frame(ws[i]) != [] {
      CutJoined(Frame, ws, i, |Frame(ws[i])| - 1, []);
    } else {
      JoinedOf(Frame, ws[..i], ws[i..]);
      assert ws == ws[..i] + ws[i..];
    }
  }

  /** Reading a stream that was cut anywhere: a cut inside a frame, behind its type byte, is
      reported, any other one looks like a clean end; and every byte of payload that is there
      comes through. */
  method ReadCut(ws: seq<seq<byte>>, cut: nat) returns (data: seq<byte>, err: Error)
    requires (forall w | w in ws :: |w| <= 1048576) && cut <= |FrameAll(ws)| + 1
    ensures err == UnexpectedEOF <==> exists i :: CutsFrame(ws, i, cut)
    ensures err != UnexpectedEOF ==> err == EOF
    ensures cut >= |FrameAll(ws)| ==> data == Flatten(ws)
    ensures forall i | CutIn(ws, i, cut) ::
              data == Flatten(ws[..i]) + PartOf(ws[i], cut - |FrameAll(ws[..i])|)
  {
    var source := new Source(CutStream(ws, cut));
    var fr := new FrameReader(source);
    data, err := CopyAll(fr);
    ghost var end := Decode(0, CutStream(ws, cut)).1;
    if cut >= |FrameAll(ws)| {
      CutBehindAll(ws, cut);
    } else {
      ghost var i := CutInSome(ws, cut);
      CutInFrame(ws, i, cut);
    }
    forall i: nat | CutIn(ws, i, cut)
      ensures data == Flatten(ws[..i]) + PartOf(ws[i], cut - |FrameAll(ws[..i])|)
      ensures end == MidFrame <==> CutsFrame(ws, i, cut)
    {
      CutInFrame(ws, i, cut);
    }
  }
}
