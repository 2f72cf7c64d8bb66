/** The payload framing of one direction of a stream: data frames and an end marker. */
module Frames {
  import opened ByteStreams
  import Varint

  const FRAME_DATA: byte := 0
  const FRAME_EOF: byte := 1
  const MAX_FRAME_LEN := 0x10_0000

  // --- What is written ---

  /** What one Write puts on the wire; an empty Write puts nothing. */
  function Frame(p: seq<byte>): seq<byte> {
    if p == [] then [] else [FRAME_DATA] + Varint.Encode(|p|) + p
  }

  function FrameAll(ws: seq<seq<byte>>): seq<byte> {
    if ws == [] then [] else Frame(ws[0]) + FrameAll(ws[1..])
  }

  function Flatten(ws: seq<seq<byte>>): seq<byte> {
    if ws == [] then [] else ws[0] + Flatten(ws[1..])
  }

  // --- What is read ---

  /** Why reading stops: the input ran out between frames, right after a type byte, or inside
      a frame; the end marker was read; or the input is malformed. */
  datatype End = Boundary | AfterType | MidFrame | Marker(rest: seq<byte>) | Malformed | TooLong

  /** The error a reader reports for it. */
  function ErrorOf(e: End): Error {
    match e
    case Boundary => EOF
    case AfterType => EOF
    case MidFrame => UnexpectedEOF
    case Marker(_) => EOF
    case Malformed => BadFrame
    case TooLong => Overflow
  }

  /** All the payload in bs, the first `remain` bytes of which finish a frame, and the end. */
  function Decode(remain: nat, bs: seq<byte>): (seq<byte>, End)
    decreases |bs|, remain
  {
    if remain > 0 then
      if |bs| < remain then (bs, MidFrame)
      else
        var (p, e) := Decode(0, bs[remain..]);
        (bs[..remain] + p, e)
    else if bs == [] then ([], Boundary)
    else if bs[0] == FRAME_EOF then ([], Marker(bs[1..]))
    else if bs[0] != FRAME_DATA then ([], Malformed)
    else
      match Varint.Decode(bs[1..], 0)
      case Short(started) => ([], if started then MidFrame else AfterType)
      case TooBig(_) => ([], TooLong)
      case Value(n, rest) =>
        if n == 0 || n > MAX_FRAME_LEN then ([], Malformed) else Decode(n, rest)
  }

  // --- Reading what was written ---

  lemma Layout<T>(t: T, code: seq<T>, p: seq<T>, rest: seq<T>)
    ensures [t] + code + p + rest == [t] + (code + (p + rest))
    ensures ([t] + (code + (p + rest)))[1..] == code + (p + rest)
  {
    assert [t] + code + p + rest == ([t] + code) + (p + rest);
  }

  lemma Split<T>(a: seq<T>, b: seq<T>)
    ensures (a + b)[|a|..] == b && (a + b)[..|a|] == a
  {
  }

  lemma Assoc<T>(a: seq<T>, b: seq<T>, c: seq<T>)
    ensures a + b + c == a + (b + c)
  {
  }

  lemma Empty<T>(a: seq<T>)
    ensures [] + a == a && a + [] == a
  {
  }

  lemma FrameLayout(p: seq<byte>, rest: seq<byte>)
    requires p != []
    ensures Frame(p) + rest == [FRAME_DATA] + (Varint.Encode(|p|) + (p + rest))
    ensures (Frame(p) + rest)[1..] == Varint.Encode(|p|) + (p + rest)
  {
    Layout(FRAME_DATA, Varint.Encode(|p|), p, rest);
  }

  /** The first frame's header parses to its length, whatever follows. */
  lemma HeaderParses(p: seq<byte>, rest: seq<byte>)
    requires p != [] && |p| < Varint.TWO_64
    ensures |Frame(p) + rest| > 0 && (Frame(p) + rest)[0] == FRAME_DATA
    ensures Varint.Decode((Frame(p) + rest)[1..], 0) == Varint.Value(|p|, p + rest)
  {
    FrameLayout(p, rest);
    Varint.RoundTrip(|p|, p + rest);
  }

  /** More bytes after a clean frame boundary just add to the payload. */
  lemma {:induction false} DecodeAppend(remain: nat, a: seq<byte>, b: seq<byte>)
    requires Decode(remain, a).1 == Boundary
    ensures Decode(remain, a + b) == (Decode(remain, a).0 + Decode(0, b).0, Decode(0, b).1)
    decreases |a|, remain
  {
    if remain > 0 {
      var first := a[..remain];
      DecodeAppend(0, a[remain..], b);
      assert a == first + a[remain..];
      Assoc(first, a[remain..], b);
      Split(first, a[remain..] + b);
      Assoc(first, Decode(0, a[remain..]).0, Decode(0, b).0);
    } else if a == [] {
      Empty(b);
      Empty(Decode(0, b).0);
    } else {
      var Value(n, rest) := Varint.Decode(a[1..], 0);
      ValueAppend(a[1..], n, rest, b);
      assert (a + b)[1..] == a[1..] + b;
      DecodeAppend(n, rest, b);
    }
  }

  lemma ValueAppend(a: seq<byte>, n: nat, rest: seq<byte>, b: seq<byte>)
    requires Varint.Decode(a, 0) == Varint.Value(n, rest)
    ensures Varint.Decode(a + b, 0) == Varint.Value(n, rest + b)
  {
    var gs := Varint.DecodedForm(a, 0);
    Varint.FormDecodes(gs, rest + b, 0);
    assert gs + (rest + b) == a + b;
  }

  lemma DecodeFrame(p: seq<byte>, rest: seq<byte>)
    requires 0 < |p| <= MAX_FRAME_LEN
    ensures Decode(0, Frame(p) + rest) == (p + Decode(0, rest).0, Decode(0, rest).1)
  {
    HeaderParses(p, rest);
    Split(p, rest);
  }

  lemma PassFrame(p: seq<byte>, more: seq<byte>)
    requires |p| <= MAX_FRAME_LEN
    ensures Decode(0, Frame(p) + more) == (p + Decode(0, more).0, Decode(0, more).1)
  {
    if p == [] {
      Empty(more);
      Empty(Decode(0, more).0);
    } else {
      DecodeFrame(p, more);
    }
  }

  /** Everything written before a boundary is read back, in order. */
  lemma {:induction false} DecodeFrames(ws: seq<seq<byte>>, rest: seq<byte>)
    requires forall w | w in ws :: |w| <= MAX_FRAME_LEN
    ensures Decode(0, FrameAll(ws) + rest) == (Flatten(ws) + Decode(0, rest).0, Decode(0, rest).1)
    decreases |ws|
  {
    if ws == [] {
      Empty(rest);
      Empty(Decode(0, rest).0);
    } else {
      DecodeFrames(ws[1..], rest);
      Assoc(Frame(ws[0]), FrameAll(ws[1..]), rest);
      Assoc(ws[0], Flatten(ws[1..]), Decode(0, rest).0);
      PassFrame(ws[0], FrameAll(ws[1..]) + rest);
    }
  }

  /** A frame over the cap is written all the same and then refused by the reader. */
  lemma OversizeRefused(p: seq<byte>, rest: seq<byte>)
    requires MAX_FRAME_LEN < |p| < Varint.TWO_64
    ensures Decode(0, Frame(p) + rest) == ([], Malformed)
  {
    HeaderParses(p, rest);
  }

  /** A closed stream reads back as exactly what was written, followed by the end marker and
      with the bytes after it untouched, if and only if no single write is over the cap. */
  lemma FrameRoundTrip(ws: seq<seq<byte>>, junk: seq<byte>)
    requires forall w | w in ws :: |w| < Varint.TWO_64
    ensures Decode(0, FrameAll(ws) + [FRAME_EOF] + junk) == (Flatten(ws), Marker(junk))
       <==> forall w | w in ws :: |w| <= MAX_FRAME_LEN
  {
    var tail := [FRAME_EOF] + junk;
    assert tail[1..] == junk;
    Assoc(FrameAll(ws), [FRAME_EOF], junk);
    if forall w | w in ws :: |w| <= MAX_FRAME_LEN {
      DecodeFrames(ws, tail);
      Empty(Flatten(ws));
    } else {
      OversizeStops(ws, tail);
    }
  }

  lemma {:induction false} OversizeStops(ws: seq<seq<byte>>, tail: seq<byte>)
    requires forall w | w in ws :: |w| < Varint.TWO_64
    requires exists w :: w in ws && |w| > MAX_FRAME_LEN
    ensures Decode(0, FrameAll(ws) + tail).1 == Malformed
    decreases |ws|
  {
    var more := FrameAll(ws[1..]) + tail;
    Assoc(Frame(ws[0]), FrameAll(ws[1..]), tail);
    if |ws[0]| > MAX_FRAME_LEN {
      OversizeRefused(ws[0], more);
    } else {
      var w :| w in ws && |w| > MAX_FRAME_LEN;
      assert ws == [ws[0]] + ws[1..];
      assert w in ws[1..];
      OversizeStops(ws[1..], tail);
      PassFrame(ws[0], more);
    }
  }

  /** Taking part of the current frame's payload takes it off the front of what is decoded. */
  lemma TakeSome(remain: nat, chunk: seq<byte>, rest: seq<byte>)
    requires |chunk| <= remain && remain > 0
    ensures Decode(remain, chunk + rest) == (chunk + Decode(remain - |chunk|, rest).0, Decode(remain - |chunk|, rest).1)
  {
    var bs := chunk + rest;
    var left := remain - |chunk|;
    if |bs| >= remain {
      assert bs[remain..] == rest[left..];
      assert bs[..remain] == chunk + rest[..left];
      if left == 0 {
        assert rest[0..] == rest && rest[..0] == [];
        Empty(chunk);
      } else {
        Assoc(chunk, rest[..left], Decode(0, rest[left..]).0);
      }
    } else {
      assert left > 0;
    }
  }

  // --- Bytes ---

  /** What a frame and the marker look like on the wire, and where the cap is. */
  lemma OnTheWire(p: seq<byte>)
    ensures FRAME_DATA == 0 && FRAME_EOF == 1 && MAX_FRAME_LEN == 1048576
    ensures 0 < |p| < 128 ==> Frame(p) == [0, |p| as byte] + p
    ensures |p| == 32768 ==> Frame(p) == [0, 128, 128, 2] + p
  {
    Varint.OnTheWire();
  }

  /** A type byte that is neither is refused. */
  lemma BadType(bs: seq<byte>)
    requires bs != [] && bs[0] > 1
    ensures Decode(0, bs) == ([], Malformed)
  {
  }

  /** So is a length of zero or over the cap. */
  lemma BadLength(bs: seq<byte>, n: nat, rest: seq<byte>)
    requires bs != [] && bs[0] == 0 && Varint.Decode(bs[1..], 0) == Varint.Value(n, rest)
    requires n == 0 || n > 1048576
    ensures Decode(0, bs) == ([], Malformed)
  {
  }

  /** A length that does not end in time is its own error. */
  lemma BadNumber(bs: seq<byte>)
    requires |bs| >= 11 && bs[0] == 0 && Varint.Overlong(bs[1..][..10])
    ensures Decode(0, bs) == ([], TooLong)
  {
    var code := bs[1..];
    assert Varint.Decode(code, 0).TooBig? by {
      Varint.FailsExactly(code, 0);
      assert forall j | 0 <= j < 10 :: code[j] == code[..10][j];
    }
  }

  // --- Reading a stream that was cut ---

  lemma CutInHeader(p: seq<byte>, cut: nat)
    requires 0 < |p| <= MAX_FRAME_LEN && 2 <= cut < 1 + |Varint.Encode(|p|)|
    ensures Decode(0, Frame(p)[..cut]) == ([], MidFrame)
  {
    var code := Varint.Encode(|p|);
    FrameLayout(p, []);
    Empty(Frame(p));
    assert Frame(p)[..cut][1..] == code[..cut - 1];
    Varint.BoundIs64Bits();
    Varint.CutIsShort(|p|, cut - 1, 0);
  }

  lemma CutInPayload(p: seq<byte>, cut: nat)
    requires 0 < |p| <= MAX_FRAME_LEN && 1 + |Varint.Encode(|p|)| <= cut < |Frame(p)|
    ensures Decode(0, Frame(p)[..cut]) == (p[..cut - 1 - |Varint.Encode(|p|)|], MidFrame)
  {
    var code := Varint.Encode(|p|);
    var got := p[..cut - 1 - |code|];
    Layout(FRAME_DATA, code, p, []);
    Empty(Frame(p));
    Empty(p);
    assert Frame(p)[..cut] == [FRAME_DATA] + (code + got);
    assert ([FRAME_DATA] + (code + got))[1..] == code + got;
    Varint.RoundTrip(|p|, got);
  }

  /** One frame, cut after k bytes: nothing of it shows up to its type byte, and from its first
      length byte on the cut is visible. */
  lemma DecodeCutFrame(p: seq<byte>, k: nat)
    requires |p| <= MAX_FRAME_LEN && k < |Frame(p)|
    ensures Decode(0, Frame(p)[..k]) ==
              (PartOf(p, k), if k == 0 then Boundary else if k == 1 then AfterType else MidFrame)
  {
    if k == 1 {
      assert Frame(p)[..k] == [FRAME_DATA];
      assert Frame(p)[..k][1..] == [];
    } else if 1 < k < 1 + |Varint.Encode(|p|)| {
      CutInHeader(p, k);
    } else if k > 1 {
      CutInPayload(p, k);
    }
  }

  /** The payload in the first k bytes of a frame: all of them but its header. */
  function PartOf(p: seq<byte>, k: nat): seq<byte>
    requires k < |Frame(p)|
  {
    if k <= |Frame(p)| - |p| then [] else p[..k - (|Frame(p)| - |p|)]
  }

  /** FrameAll, for any way to put one write on the wire. */
  function Joined(f: seq<byte> -> seq<byte>, ws: seq<seq<byte>>): seq<byte> {
    if ws == [] then [] else f(ws[0]) + Joined(f, ws[1..])
  }

  lemma {:induction false} FrameAllIsJoined(ws: seq<seq<byte>>)
    ensures FrameAll(ws) == Joined(Frame, ws)
    decreases |ws|
  {
    if ws != [] {
      FrameAllIsJoined(ws[1..]);
    }
  }

  lemma {:induction false} JoinedOf(f: seq<byte> -> seq<byte>, a: seq<seq<byte>>, b: seq<seq<byte>>)
    ensures Joined(f, a + b) == Joined(f, a) + Joined(f, b)
    decreases |a|
  {
    if a == [] {
      Empty(b);
      Empty(Joined(f, b));
    } else {
      JoinedOf(f, a[1..], b);
      assert (a + b)[0] == a[0] && (a + b)[1..] == a[1..] + b;
      Assoc(f(a[0]), Joined(f, a[1..]), Joined(f, b));
    }
  }

  /** The i-th write lies between those before it and those behind it; cut k bytes into it, the
      stream is those before it and k bytes. */
  lemma CutJoined(f: seq<byte> -> seq<byte>, ws: seq<seq<byte>>, i: nat, k: nat, end: seq<byte>)
    requires i < |ws| && k < |f(ws[i])|
    ensures |Joined(f, ws[..i])| + k < |Joined(f, ws)|
    ensures (Joined(f, ws) + end)[..|Joined(f, ws[..i])| + k] == Joined(f, ws[..i]) + f(ws[i])[..k]
  {
    var before, one, behind := Joined(f, ws[..i]), f(ws[i]), Joined(f, ws[i + 1..]);
    assert ws == ws[..i] + ws[i..] && ws[i..][0] == ws[i] && ws[i..][1..] == ws[i + 1..];
    JoinedOf(f, ws[..i], ws[i..]);
    assert Joined(f, ws) == before + (one + behind);
    Assoc(before, one + behind, end);
    CutPrefix(before, one, behind, end, k);
  }

  lemma CutPrefix(before: seq<byte>, f: seq<byte>, behind: seq<byte>, end: seq<byte>, k: nat)
    requires k < |f|
    ensures (before + (f + behind) + end)[..|before| + k] == before + f[..k]
  {
  }

  /** A stream cut k bytes into the i-th frame delivers the writes before that frame and as much
      of its own as is there; and the end shows exactly where the cut was. */
  lemma Truncation(ws: seq<seq<byte>>, i: nat, k: nat)
    requires forall w | w in ws :: |w| <= MAX_FRAME_LEN
    requires i < |ws| && k < |Frame(ws[i])|
    ensures |FrameAll(ws[..i])| + k < |FrameAll(ws)|
    ensures Decode(0, (FrameAll(ws) + [FRAME_EOF])[..|FrameAll(ws[..i])| + k]) ==
              (Flatten(ws[..i]) + PartOf(ws[i], k), if k == 0 then Boundary else if k == 1 then AfterType else MidFrame)
  {
    FrameAllIsJoined(ws);
    FrameAllIsJoined(ws[..i]);
    CutJoined(Frame, ws, i, k, [FRAME_EOF]);
    DecodeFrames(ws[..i], Frame(ws[i])[..k]);
    DecodeCutFrame(ws[i], k);
  }

  /** Cut behind all the frames it delivers everything, and the marker shows if it is there. */
  lemma CutBehind(ws: seq<seq<byte>>, marked: bool)
    requires forall w | w in ws :: |w| <= MAX_FRAME_LEN
    ensures Decode(0, FrameAll(ws) + if marked then [FRAME_EOF] else []) ==
              (Flatten(ws), if marked then Marker([]) else Boundary)
  {
    var tail := if marked then [FRAME_EOF] else [];
    DecodeFrames(ws, tail);
    Empty(Flatten(ws));
    assert marked ==> tail[1..] == [];
  }

  /** Every cut is behind all of them or in one of them. */
  lemma {:induction false} WriteOfCut(f: seq<byte> -> seq<byte>, ws: seq<seq<byte>>, cut: nat) returns (i: nat, k: nat)
    requires cut < |Joined(f, ws)|
    ensures i < |ws| && cut == |Joined(f, ws[..i])| + k && k < |f(ws[i])|
    decreases |ws|
  {
    var n := |ws| - 1;
    var front, last := ws[..n], ws[n..];
    assert ws == front + last && last[0] == ws[n] && last[1..] == [];
    JoinedOf(f, front, last);
    if cut >= |Joined(f, front)| {
      i, k := n, cut - |Joined(f, front)|;
    } else {
      i, k := WriteOfCut(f, front, cut);
      assert front[..i] == ws[..i];
    }
  }

  /** What a prefix of the input delivers is a prefix of what all of it delivers. */
  lemma {:induction false} DecodePrefix(remain: nat, a: seq<byte>, b: seq<byte>)
    ensures Decode(remain, a).0 <= Decode(remain, a + b).0
    ensures Decode(remain, a).1.Marker? ==>
              Decode(remain, a + b) == (Decode(remain, a).0, Marker(Decode(remain, a).1.rest + b))
    decreases |a|, remain
  {
    if remain > 0 {
      if |a| >= remain {
        DecodePrefix(0, a[remain..], b);
        assert (a + b)[remain..] == a[remain..] + b && (a + b)[..remain] == a[..remain];
      } else if |a + b| >= remain {
        assert a <= (a + b)[..remain];
      }
    } else if a != [] {
      assert (a + b)[1..] == a[1..] + b && (a + b)[0] == a[0];
      if a[0] == FRAME_DATA && Varint.Decode(a[1..], 0).Value? {
        var Value(n, rest) := Varint.Decode(a[1..], 0);
        ValueAppend(a[1..], n, rest, b);
        if 0 < n <= MAX_FRAME_LEN {
          DecodePrefix(n, rest, b);
        }
      }
    }
  }
}
