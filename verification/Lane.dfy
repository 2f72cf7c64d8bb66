/** One direction of a stream: an application, a frame writer, a FIFO that loses nothing but
    may deliver late and may be cut, a frame reader, and the application at the far end. */
module Lane {
  import opened ByteStreams
  import opened Frames
  import Varint

  datatype Writing = NotYet | Copying | Stopped

  /** `Done(true)` means the end marker was read. */
  datatype Reading = Waiting | Relaying | Done(marker: bool)

  datatype Lane = Lane(
    source: seq<byte>,     // what the sending application will still give
    read: seq<byte>,       // history: what the copier took from it
    lead: seq<byte>,       // header or ack bytes sent and not yet consumed
    rest: seq<byte>,       // framed bytes sent and not yet consumed
    avail: nat,            // how many of lead + rest have arrived
    cut: bool,             // nothing more will arrive or be accepted
    writing: Writing,
    marked: bool,          // history: the end marker was sent
    reading: Reading,
    remain: nat,           // payload left in the frame being read
    delivered: seq<byte>,  // what the receiving application got
    lost: bool)            // history: the sending application failed before its end

  function Fresh(source: seq<byte>): Lane {
    Lane(source, [], [], [], 0, false, NotYet, false, Waiting, 0, [], false)
  }

  datatype Event =
    | Push(k: nat)         // one round of the copy: k bytes read and written as one frame
    | Finish               // the source ended, or writing failed: CloseWrite
    | SourceFails
    | Arrive(n: nat)
    | ReadHead             // type byte and length of the next frame
    | Take(k: nat)         // k payload bytes to the receiving application
    | ReadMarker
    | ReadFails            // the stream ended here, or the receiving application failed
    | Cut

  /** The bytes the reader can see. */
  function Queue(l: Lane): seq<byte>
    requires l.avail <= |l.lead + l.rest|
  {
    (l.lead + l.rest)[..l.avail]
  }

  predicate Bounded(l: Lane) { l.avail <= |l.lead + l.rest| }

  predicate Enabled(l: Lane, e: Event) {
    Bounded(l) &&
    match e
    case Push(k) => l.writing.Copying? && !l.cut && 0 < k <= |l.source| && k <= MAX_FRAME_LEN
    case Finish => l.writing.Copying? && (l.source == [] || l.cut)
    case SourceFails => l.writing.Copying?
    case Arrive(n) => !l.cut && l.avail + n <= |l.lead + l.rest|
    case ReadHead =>
      && l.reading.Relaying? && l.lead == [] && l.remain == 0 && l.avail > 0
      && Queue(l)[0] != FRAME_EOF && (Queue(l)[0] == FRAME_DATA ==> !Varint.Decode(Queue(l)[1..], 0).Short?)
    case Take(k) => l.reading.Relaying? && l.lead == [] && 0 < k <= l.remain && k <= l.avail
    case ReadMarker => l.reading.Relaying? && l.lead == [] && l.remain == 0 && l.avail > 0 && Queue(l)[0] == FRAME_EOF
    case ReadFails => l.reading.Relaying?
    case Cut => true
  }

  /** The first n bytes of the stream are consumed. */
  function Consume(l: Lane, n: nat): Lane
    requires n <= l.avail <= |l.lead + l.rest|
  {
    if n <= |l.lead| then l.(lead := l.lead[n..], avail := l.avail - n)
    else l.(lead := [], rest := l.rest[n - |l.lead|..], avail := l.avail - n)
  }

  function Next(l: Lane, e: Event): Lane
    requires Enabled(l, e)
  {
    match e
    case Push(k) => l.(source := l.source[k..], read := l.read + l.source[..k], rest := l.rest + Frame(l.source[..k]))
    case Finish =>
      if l.cut then l.(writing := Stopped)
      else l.(writing := Stopped, marked := true, rest := l.rest + [FRAME_EOF])
    case SourceFails => l.(source := [], lost := true)
    case Arrive(n) => l.(avail := l.avail + n)
    case ReadHead =>
      (match Varint.Decode(Queue(l)[1..], 0)
       case Value(n, rest) =>
         if Queue(l)[0] == FRAME_DATA && 0 < n <= MAX_FRAME_LEN
         then Consume(l, l.avail - |rest|).(remain := n) else l.(reading := Done(false))
       case _ => l.(reading := Done(false)))
    case Take(k) => Consume(l, k).(remain := l.remain - k, delivered := l.delivered + Queue(l)[..k])
    case ReadMarker => Consume(l, 1).(reading := Done(true))
    case ReadFails => l.(reading := Done(false))
    case Cut => l.(cut := true)
  }

  // --- The invariant ---

  /** Nothing is lost, doubled or reordered between what was read from the source and what
      was delivered: the difference is exactly the payload still in the stream. */
  ghost predicate InStream(l: Lane) {
    && l.delivered + Decode(l.remain, l.rest).0 == l.read
    && Decode(l.remain, l.rest).1 == if l.marked then Marker([]) else Boundary
  }

  ghost predicate Inv(l: Lane, whole: seq<byte>) {
    && Bounded(l)
    && l.read + l.source <= whole && (!l.lost ==> l.read + l.source == whole)
    && (l.reading.Done? && !l.reading.marker ==> l.delivered <= l.read)
    && (l.reading.Done? && l.reading.marker ==> l.delivered == l.read && l.marked)
    && (!l.reading.Done? ==> InStream(l))
    && (l.reading.Waiting? ==> l.delivered == [] && l.remain == 0)
    && (l.lead != [] ==> !l.reading.Relaying?)
    && (l.marked ==> l.writing.Stopped? && l.source == [])
    && (l.writing.NotYet? ==> l.read == [] && l.rest == [])
  }

  lemma FreshInv(source: seq<byte>)
    ensures Inv(Fresh(source), source)
  {
    Empty(source);
  }

  lemma PushKeeps(l: Lane, k: nat, whole: seq<byte>)
    requires Inv(l, whole) && Enabled(l, Push(k))
    ensures Inv(Next(l, Push(k)), whole)
  {
    var p := l.source[..k];
    assert l.source == p + l.source[k..];
    Assoc(l.read, p, l.source[k..]);
    if !l.reading.Done? {
      DecodeAppend(l.remain, l.rest, Frame(p));
      DecodeFrame(p, []);
      Empty(Frame(p));
      Empty(p);
      Assoc(l.delivered, Decode(l.remain, l.rest).0, p);
    }
  }

  lemma FinishKeeps(l: Lane, whole: seq<byte>)
    requires Inv(l, whole) && Enabled(l, Finish)
    ensures Inv(Next(l, Finish), whole)
  {
    if !l.cut && !l.reading.Done? {
      DecodeAppend(l.remain, l.rest, [FRAME_EOF]);
      Empty(Decode(l.remain, l.rest).0);
      assert [FRAME_EOF][1..] == [];
    }
  }

  lemma ConsumeRest(l: Lane, n: nat)
    requires Bounded(l) && l.lead == [] && n <= l.avail
    ensures Consume(l, n) == l.(rest := l.rest[n..], avail := l.avail - n)
    ensures Queue(l) == l.rest[..l.avail]
  {
    Empty(l.rest);
  }

  /** Seen from a part q of a well-formed stream q + tail, a frame header is what was sent. */
  lemma HeadDecodes(q: seq<byte>, tail: seq<byte>)
    requires q != [] && q[0] != FRAME_EOF && (q[0] == FRAME_DATA ==> !Varint.Decode(q[1..], 0).Short?)
    requires Decode(0, q + tail).1 == Boundary || Decode(0, q + tail).1.Marker?
    ensures q[0] == FRAME_DATA && Varint.Decode(q[1..], 0).Value?
    ensures var Value(n, rest) := Varint.Decode(q[1..], 0);
            && 0 < n <= MAX_FRAME_LEN
            && Decode(0, q + tail) == Decode(n, rest + tail)
            && (q + tail)[|q| - |rest|..] == rest + tail
  {
    var bs := q + tail;
    assert bs[1..] == q[1..] + tail;
    if q[0] == FRAME_DATA && Varint.Decode(q[1..], 0).TooBig? {
      TooBigAppend(q[1..], tail);
    }
    if q[0] == FRAME_DATA && Varint.Decode(q[1..], 0).Value? {
      var Value(n, rest) := Varint.Decode(q[1..], 0);
      ValueAppend(q[1..], n, rest, tail);
      HeadConsumed(q, rest, tail);
    }
  }

  /** Reading a frame header on a well-formed stream. */
  lemma HeadNext(l: Lane) returns (n: nat, rest: seq<byte>, avail: nat)
    requires Enabled(l, ReadHead) && (Decode(0, l.rest).1 == Boundary || Decode(0, l.rest).1.Marker?)
    ensures Next(l, ReadHead) == l.(rest := rest, avail := avail, remain := n)
    ensures avail <= |rest| && Decode(0, l.rest) == Decode(n, rest)
  {
    var q, tail := l.rest[..l.avail], l.rest[l.avail..];
    ConsumeRest(l, 0);
    assert l.rest == q + tail;
    HeadDecodes(q, tail);
    var Value(m, left) := Varint.Decode(q[1..], 0);
    ConsumeRest(l, l.avail - |left|);
    n, rest, avail := m, left + tail, |left|;
  }

  lemma HeadKeeps(l: Lane, whole: seq<byte>)
    requires Inv(l, whole) && Enabled(l, ReadHead)
    ensures Next(l, ReadHead).reading.Relaying?
    ensures Inv(Next(l, ReadHead), whole)
  {
    var n, rest, avail := HeadNext(l);
    Empty(Decode(n, rest).0);
    Empty(l.delivered);
    Advance(l, whole, rest, avail, n, []);
  }

  /** Consuming a part of the stream that holds the payload `chunk` keeps the invariant. */
  lemma Advance(l: Lane, whole: seq<byte>, rest: seq<byte>, avail: nat, remain: nat, chunk: seq<byte>)
    requires Inv(l, whole) && l.reading.Relaying? && avail <= |rest|
    requires Decode(l.remain, l.rest) == (chunk + Decode(remain, rest).0, Decode(remain, rest).1)
    requires !l.writing.NotYet?
    ensures Inv(l.(rest := rest, avail := avail, remain := remain, delivered := l.delivered + chunk), whole)
  {
    Assoc(l.delivered, chunk, Decode(remain, rest).0);
    Empty(rest);
  }

  lemma {:induction false} TooBigFrom(a: seq<byte>, b: seq<byte>, i: nat)
    requires Varint.Decode(a, i).TooBig?
    ensures Varint.Decode(a + b, i).TooBig?
    decreases |a|
  {
    if i < Varint.MAX_LEN && a[0] >= 128 {
      assert (a + b)[1..] == a[1..] + b;
      TooBigFrom(a[1..], b, i + 1);
    }
  }

  lemma TooBigAppend(a: seq<byte>, b: seq<byte>)
    requires Varint.Decode(a, 0).TooBig?
    ensures Varint.Decode(a + b, 0).TooBig?
  {
    TooBigFrom(a, b, 0);
  }

  lemma HeadConsumed(q: seq<byte>, rest: seq<byte>, tail: seq<byte>)
    requires q != [] && Varint.Decode(q[1..], 0).Value? && Varint.Decode(q[1..], 0).rest == rest
    ensures |rest| < |q|
    ensures (q + tail)[|q| - |rest|..] == rest + tail
  {
    var gs := Varint.DecodedForm(q[1..], 0);
    assert q == [q[0]] + gs + rest;
    assert q + tail == ([q[0]] + gs) + (rest + tail);
  }

  lemma TakeKeeps(l: Lane, k: nat, whole: seq<byte>)
    requires Inv(l, whole) && Enabled(l, Take(k))
    ensures Inv(Next(l, Take(k)), whole)
  {
    ConsumeRest(l, k);
    var chunk, rest := l.rest[..k], l.rest[k..];
    assert l.rest == chunk + rest;
    assert Queue(l)[..k] == chunk;
    TakeSome(l.remain, chunk, rest);
    assert Next(l, Take(k)) == l.(rest := rest, avail := l.avail - k, remain := l.remain - k,
                                  delivered := l.delivered + chunk);
    Advance(l, whole, rest, l.avail - k, l.remain - k, chunk);
  }

  lemma MarkerKeeps(l: Lane, whole: seq<byte>)
    requires Inv(l, whole) && Enabled(l, ReadMarker)
    ensures Inv(Next(l, ReadMarker), whole) && Next(l, ReadMarker).rest == []
  {
    Empty(l.rest);
    assert Queue(l)[0] == l.rest[0];
    Empty(l.delivered);
  }

  /** Every event of a lane keeps its invariant, and its reader never meets a malformed frame. */
  lemma StepKeeps(l: Lane, e: Event, whole: seq<byte>)
    requires Inv(l, whole) && Enabled(l, e)
    ensures Inv(Next(l, e), whole)
    ensures e.ReadHead? ==> Next(l, e).reading.Relaying?
  {
    match e
    case Push(k) => PushKeeps(l, k, whole);
    case Finish => FinishKeeps(l, whole);
    case ReadHead => HeadKeeps(l, whole);
    case Take(k) => TakeKeeps(l, k, whole);
    case ReadMarker => MarkerKeeps(l, whole);
    case SourceFails => Empty(l.read);
    case _ =>
  }

  /** Nothing broke on this lane: whoever stopped reading saw the marker, and whoever stopped
      writing sent it. */
  predicate Whole(l: Lane) {
    !l.cut && !l.lost && (l.reading.Done? ==> l.reading.marker) && (l.writing.Stopped? ==> l.marked)
  }

  predicate Breaks(e: Event) { e.Cut? || e.SourceFails? || e.ReadFails? }

  /** What an event of a lane leaves alone: m is l after one event, a breaking one or not. */
  ghost predicate Follows(l: Lane, m: Lane, breaks: bool) {
    && m.lead == l.lead
    && (!l.reading.Relaying? ==> m.reading == l.reading && m.delivered == l.delivered)
    && (l.reading.Relaying? ==> !m.reading.Waiting?)
    && (!l.writing.Copying? ==> m.writing == l.writing && m.read == l.read)
    && (!l.writing.Copying? && !l.reading.Relaying? ==> m.rest == l.rest)
    && (l.writing.Copying? ==> !m.writing.NotYet?)
    && (!breaks ==> m.cut == l.cut && (Whole(l) ==> Whole(m)))
  }

  lemma StepFollows(l: Lane, e: Event, whole: seq<byte>)
    requires Inv(l, whole) && Enabled(l, e)
    ensures Follows(l, Next(l, e), Breaks(e)) && Inv(Next(l, e), whole)
  {
    StepKeeps(l, e, whole);
  }

  /** On a marked, complete stream the reader can always go on. */
  lemma ReaderCanProceed(l: Lane) returns (e: Event)
    requires Bounded(l) && l.lead == [] && l.reading.Relaying? && l.avail == |l.rest|
    requires Decode(l.remain, l.rest).1 == Marker([])
    ensures Enabled(l, e) && (e.Take? || e.ReadHead? || e.ReadMarker?)
  {
    Empty(l.rest);
    assert Queue(l) == l.rest;
    if l.remain > 0 {
      e := Take(1);
    } else if l.rest[0] == FRAME_EOF {
      e := ReadMarker;
    } else {
      e := ReadHead;
    }
  }

  lemma WriterCanProceed(l: Lane) returns (e: Event)
    requires Bounded(l) && l.writing.Copying? && !l.cut
    ensures Enabled(l, e) && (e.Finish? || e.Push?) && Next(l, e) != l
  {
    e := if l.source == [] then Finish else Push(1);
    if e.Push? { assert |l.source[1..]| < |l.source|; }
  }

  /** A lane on which nothing broke never gets stuck before the marker was read. */
  lemma CanProceed(l: Lane, whole: seq<byte>) returns (e: Event)
    requires Inv(l, whole) && Whole(l) && l.lead == [] && !l.writing.NotYet? && l.reading.Relaying?
    ensures Enabled(l, e) && !Breaks(e) && Next(l, e) != l
  {
    Empty(l.rest);
    if l.writing.Copying? {
      e := WriterCanProceed(l);
    } else if l.avail < |l.rest| {
      e := Arrive(|l.rest| - l.avail);
    } else {
      e := ReaderCanProceed(l);
      if e.ReadHead? { HeadMoves(l, whole); }
    }
  }

  lemma HeadMoves(l: Lane, whole: seq<byte>)
    requires Inv(l, whole) && Enabled(l, ReadHead)
    ensures Next(l, ReadHead) != l
  {
    HeadKeeps(l, whole);
    ConsumeRest(l, 0);
  }
}
