/** One forwarded connection: forward on the server, handleStream on the client, and the
    smux stream between them, step by step and in any interleaving. */
module Tunnel {
  import opened ByteStreams
  import opened Frames
  import opened Outcomes
  import opened StreamHeader
  import L = Lane
  import Varint

  datatype Server = Opening | AwaitingAck | Relaying | Gone

  datatype Client = AwaitingHeader | Deciding(port: nat) | Forwarding | Left

  datatype Ack = NoAck | Sent(status: byte)

  datatype Result = NoResult | Labelled(l: Label) | TimedOut | HeaderFailed

  datatype State = State(
    port: nat,            // the reverse port of the connection
    allowed: set<nat>,    // the ports in the client's pushed configuration
    up: L.Lane,           // external client to local service
    down: L.Lane,         // local service to external client
    server: Server,
    client: Client,
    ack: Ack,             // history: what the client answered
    dialed: set<nat>,     // history: the ports whose service was dialed with success
    result: Result,       // what forward recorded
    failed: bool)         // history: a timeout, or a stream, write, source or target failed

  datatype Event =
    | SendHeader
    | HeaderFails(i: nat)                    // i bytes of the header went out before the write failed
    | ReadHeader
    | HeaderEnds                             // the header is malformed or the stream ended in it
    | Decide(draining: bool, dialOk: bool)
    | ReadAck
    | AckTimeout                             // or any other failure to read the ack
    | Up(e: L.Event)
    | Down(e: L.Event)
    | ServerReturns
    | ClientReturns

  function Init(port: nat, allowed: set<nat>, x: seq<byte>, y: seq<byte>): State {
    State(port, allowed, L.Fresh(x), L.Fresh(y), Opening, AwaitingHeader, NoAck, {}, NoResult, false)
  }

  predicate Enabled(s: State, e: Event) {
    match e
    case SendHeader => s.server.Opening?
    case HeaderFails(i) => s.server.Opening? && i <= |Header(s.port)|
    case ReadHeader => s.client.AwaitingHeader? && L.Bounded(s.up) && Parse(L.Queue(s.up)).Port?
    case HeaderEnds =>
      && s.client.AwaitingHeader? && L.Bounded(s.up) && Parse(L.Queue(s.up)).Refused?
      && (s.up.cut || (Parse(L.Queue(s.up)).err != EOF && Parse(L.Queue(s.up)).err != UnexpectedEOF))
    case Decide(_, _) => s.client.Deciding?
    case ReadAck => s.server.AwaitingAck? && L.Bounded(s.down) && s.down.avail > 0
    case AckTimeout => s.server.AwaitingAck?
    case Up(l) => L.Enabled(s.up, l)
    case Down(l) => L.Enabled(s.down, l)
    case ServerReturns => s.server.Relaying? && s.down.reading.Done? && s.up.writing.Stopped?
    case ClientReturns => s.client.Forwarding? && s.up.reading.Done? && s.down.writing.Stopped?
  }

  /** Closing a stream stops this end's reader and writer; what was sent may still arrive. */
  function StopReading(l: L.Lane): L.Lane {
    if l.reading.Done? then l else l.(reading := L.Done(false))
  }

  function StopWriting(l: L.Lane): L.Lane { l.(writing := L.Stopped) }

  /** The ack byte the client answers with. */
  function Verdict(s: State, port: nat, draining: bool, dialOk: bool): byte {
    if draining then ACK_REJECTED
    else if port !in s.allowed then ACK_PORT_NOT_ALLOWED
    else if !dialOk then ACK_DIAL_FAILED
    else ACK_OK
  }

  function ServerCloses(s: State, result: Result): State {
    s.(server := Gone, result := result, down := StopReading(s.down), up := StopWriting(s.up))
  }

  function ClientCloses(s: State): State {
    s.(client := Left, up := StopReading(s.up), down := StopWriting(s.down))
  }

  function Next(s: State, e: Event): State
    requires Enabled(s, e)
  {
    match e
    case SendHeader =>
      s.(server := AwaitingAck, up := s.up.(lead := Header(s.port), writing := L.Copying))
    case HeaderFails(i) =>
      ServerCloses(s.(up := s.up.(lead := Header(s.port)[..i], cut := true), failed := true), HeaderFailed)
    case ReadHeader =>
      var Port(p, rest) := Parse(L.Queue(s.up));
      s.(client := Deciding(p), up := L.Consume(s.up, if |rest| <= s.up.avail then s.up.avail - |rest| else 0))
    case HeaderEnds =>
      if Parse(L.Queue(s.up)).err == EOF then ClientCloses(s)
      else ClientCloses(s.(ack := Sent(ACK_REJECTED), down := s.down.(lead := [ACK_REJECTED])))
    case Decide(draining, dialOk) =>
      var status := Verdict(s, s.client.port, draining, dialOk);
      var t := s.(ack := Sent(status), down := s.down.(lead := [status]));
      if status != ACK_OK then ClientCloses(t)
      else t.(client := Forwarding, dialed := s.dialed + {s.client.port},
              up := s.up.(reading := L.Relaying), down := t.down.(writing := L.Copying))
    case ReadAck =>
      var status := L.Queue(s.down)[0];
      var t := s.(down := L.Consume(s.down, 1));
      if status != ACK_OK then ServerCloses(t, Labelled(AckResult(status)))
      else t.(server := Relaying, result := Labelled(AckResult(status)), down := t.down.(reading := L.Relaying))
    case AckTimeout => ServerCloses(s, TimedOut).(failed := true)
    case Up(l) => s.(up := L.Next(s.up, l), failed := s.failed || L.Breaks(l))
    case Down(l) => s.(down := L.Next(s.down, l), failed := s.failed || L.Breaks(l))
    case ServerReturns => s.(server := Gone, down := StopReading(s.down))
    case ClientReturns => s.(client := Left, up := StopReading(s.up))
  }

  ghost predicate Run(s: State, es: seq<Event>, t: State)
    decreases |es|
  {
    if es == [] then t == s else Enabled(s, es[0]) && Run(Next(s, es[0]), es[1..], t)
  }

  // --- The invariant ---

  /** The header is on its way, whole unless its write failed. */
  ghost predicate HeaderSent(s: State) {
    && s.up.lead <= Header(s.port)
    && (s.server.Opening? || s.up.lead == Header(s.port) || (s.failed && s.up.rest == [] && !s.up.writing.Copying?))
  }

  ghost predicate ClientInv(s: State) {
    match s.client
    case AwaitingHeader => HeaderSent(s) && s.ack == NoAck && s.up.reading.Waiting? && s.down.writing.NotYet?
    case Deciding(p) =>
      && p == s.port && s.up.lead == [] && s.ack == NoAck && s.up.reading.Waiting? && s.down.writing.NotYet?
      && !s.server.Opening?
    case Forwarding => s.ack == Sent(ACK_OK) && !s.up.reading.Waiting? && !s.server.Opening?
    case Left => s.up.reading.Done?
  }

  ghost predicate ServerInv(s: State) {
    match s.server
    case Opening =>
      && s.result == NoResult && s.down.reading.Waiting? && s.down.lead == AckBytes(s)
      && s.up.lead == [] && s.up.rest == [] && s.up.writing.NotYet?
    case AwaitingAck => s.result == NoResult && s.down.reading.Waiting? && s.down.lead == AckBytes(s)
    case Relaying => s.result == Labelled(OK) && !s.down.reading.Waiting? && s.ack == Sent(ACK_OK)
    case Gone => s.result != NoResult && s.down.reading.Done? && (s.result != Labelled(OK) ==> s.down.delivered == [])
  }

  ghost function AckBytes(s: State): seq<byte> { if s.ack.Sent? then [s.ack.status] else [] }

  ghost predicate AckInv(s: State) {
    && (s.ack != Sent(ACK_OK) ==>
          && s.up.delivered == [] && !s.up.reading.Relaying? && s.dialed == {}
          && s.down.read == [] && s.down.rest == [] && !s.down.writing.Copying? && s.down.delivered == [])
    && (s.ack == NoAck ==> s.down.lead == [])
    && s.dialed <= {s.port} * s.allowed
    && (s.result.Labelled? ==> s.ack.Sent? && s.result.l == AckResult(s.ack.status))
  }

  ghost predicate Inv(s: State, x: seq<byte>, y: seq<byte>) {
    && L.Inv(s.up, x) && L.Inv(s.down, y)
    && ClientInv(s) && ServerInv(s) && AckInv(s)
    && (!s.failed && (s.ack == NoAck || s.ack == Sent(ACK_OK)) ==> L.Whole(s.up) && L.Whole(s.down))
    && (!s.failed ==> (s.result.NoResult? || s.result.Labelled?) && !s.up.cut && !s.down.cut)
    && (!s.server.Opening? ==> !s.up.writing.NotYet?)
    && (s.ack == Sent(ACK_OK) ==> !s.down.writing.NotYet?)
    && (!s.failed && s.client.Left? ==> s.ack.Sent? && (s.ack == Sent(ACK_OK) ==> s.down.writing.Stopped?))
    && (!s.failed && s.server.Gone? && s.ack == Sent(ACK_OK) ==> s.up.writing.Stopped?)
  }

  lemma InitInv(port: nat, allowed: set<nat>, x: seq<byte>, y: seq<byte>)
    ensures Inv(Init(port, allowed, x, y), x, y)
  {
    L.FreshInv(x);
    L.FreshInv(y);
  }

  /** What the client makes of the part of the stream it can see: the header, once it is all
      there, and never anything else. */
  lemma HeaderSeen(l: L.Lane, port: nat)
    requires 1 <= port <= 65535 && L.Bounded(l) && l.lead <= Header(port)
    requires l.lead == Header(port) || l.rest == []
    ensures if l.avail < |Header(port)| then
              Parse(L.Queue(l)).Refused? && Parse(L.Queue(l)).err in {EOF, UnexpectedEOF}
            else
              l.lead == Header(port) && Parse(L.Queue(l)) == Port(port, l.rest[..l.avail - |l.lead|])
  {
    var q := L.Queue(l);
    if l.avail < |Header(port)| {
      assert q == Header(port)[..l.avail];
      if l.avail > 0 {
        assert q[1..] == Varint.Encode(port)[..l.avail - 1];
        Varint.BoundIs64Bits();
        Varint.CutIsShort(port, l.avail - 1, 0);
      }
    } else {
      assert l.lead == Header(port);
      assert q == Header(port) + l.rest[..l.avail - |l.lead|];
      HeaderRoundTrip(port, l.rest[..l.avail - |l.lead|]);
    }
  }

  lemma SendHeaderKeeps(s: State, x: seq<byte>, y: seq<byte>)
    requires Inv(s, x, y) && Enabled(s, SendHeader)
    ensures Inv(Next(s, SendHeader), x, y)
  {
  }

  lemma HeaderFailsKeeps(s: State, i: nat, x: seq<byte>, y: seq<byte>)
    requires Inv(s, x, y) && Enabled(s, HeaderFails(i))
    ensures Inv(Next(s, HeaderFails(i)), x, y)
  {
  }

  lemma ReadHeaderKeeps(s: State, x: seq<byte>, y: seq<byte>)
    requires Inv(s, x, y) && Enabled(s, ReadHeader) && 1 <= s.port <= 65535
    ensures Inv(Next(s, ReadHeader), x, y)
  {
    if !s.server.Opening? {
      HeaderSeen(s.up, s.port);
    }
  }

  lemma HeaderEndsKeeps(s: State, x: seq<byte>, y: seq<byte>)
    requires Inv(s, x, y) && Enabled(s, HeaderEnds) && 1 <= s.port <= 65535
    ensures Inv(Next(s, HeaderEnds), x, y)
  {
    if !s.server.Opening? {
      HeaderSeen(s.up, s.port);
    }
  }

  lemma DecideKeeps(s: State, draining: bool, dialOk: bool, x: seq<byte>, y: seq<byte>)
    requires Inv(s, x, y) && Enabled(s, Decide(draining, dialOk))
    ensures Inv(Next(s, Decide(draining, dialOk)), x, y)
  {
  }

  lemma ReadAckKeeps(s: State, x: seq<byte>, y: seq<byte>)
    requires Inv(s, x, y) && Enabled(s, ReadAck)
    ensures Inv(Next(s, ReadAck), x, y)
  {
    assert s.down.lead == AckBytes(s);
  }

  lemma TimeoutKeeps(s: State, x: seq<byte>, y: seq<byte>)
    requires Inv(s, x, y) && Enabled(s, AckTimeout)
    ensures Inv(Next(s, AckTimeout), x, y)
  {
  }

  lemma ReturnsKeep(s: State, e: Event, x: seq<byte>, y: seq<byte>)
    requires Inv(s, x, y) && Enabled(s, e) && (e.ServerReturns? || e.ClientReturns?)
    ensures Inv(Next(s, e), x, y)
  {
  }

  lemma UpFollows(s: State, up: L.Lane, breaks: bool, x: seq<byte>, y: seq<byte>)
    requires Inv(s, x, y) && L.Inv(up, x) && L.Follows(s.up, up, breaks)
    ensures Inv(s.(up := up, failed := s.failed || breaks), x, y)
  {
  }

  lemma DownFollows(s: State, down: L.Lane, breaks: bool, x: seq<byte>, y: seq<byte>)
    requires Inv(s, x, y) && L.Inv(down, y) && L.Follows(s.down, down, breaks)
    ensures Inv(s.(down := down, failed := s.failed || breaks), x, y)
  {
  }

  lemma LaneKeeps(s: State, e: Event, x: seq<byte>, y: seq<byte>)
    requires Inv(s, x, y) && Enabled(s, e) && (e.Up? || e.Down?)
    ensures Inv(Next(s, e), x, y)
  {
    if e.Up? {
      L.StepFollows(s.up, e.e, x);
      UpFollows(s, L.Next(s.up, e.e), L.Breaks(e.e), x, y);
    } else {
      L.StepFollows(s.down, e.e, y);
      DownFollows(s, L.Next(s.down, e.e), L.Breaks(e.e), x, y);
    }
  }

  lemma StaysOnPort(s: State, e: Event)
    requires Enabled(s, e)
    ensures Next(s, e).port == s.port && Next(s, e).allowed == s.allowed
  {
  }

  lemma EndKeeps(s: State, e: Event, x: seq<byte>, y: seq<byte>)
    requires Inv(s, x, y) && Enabled(s, e) && 1 <= s.port <= 65535 && !e.Up? && !e.Down?
    ensures Inv(Next(s, e), x, y)
  {
    match e
    case SendHeader => SendHeaderKeeps(s, x, y);
    case HeaderFails(i) => HeaderFailsKeeps(s, i, x, y);
    case ReadHeader => ReadHeaderKeeps(s, x, y);
    case HeaderEnds => HeaderEndsKeeps(s, x, y);
    case Decide(d, ok) => DecideKeeps(s, d, ok, x, y);
    case ReadAck => ReadAckKeeps(s, x, y);
    case AckTimeout => TimeoutKeeps(s, x, y);
    case ServerReturns => ReturnsKeep(s, e, x, y);
    case ClientReturns => ReturnsKeep(s, e, x, y);
  }

  lemma StepKeeps(s: State, e: Event, x: seq<byte>, y: seq<byte>)
    requires Inv(s, x, y) && Enabled(s, e) && 1 <= s.port <= 65535
    ensures Inv(Next(s, e), x, y) && Next(s, e).port == s.port && Next(s, e).allowed == s.allowed
  {
    StaysOnPort(s, e);
    if e.Up? || e.Down? {
      LaneKeeps(s, e, x, y);
    } else {
      EndKeeps(s, e, x, y);
    }
  }

  lemma {:induction false} RunKeeps(s: State, es: seq<Event>, t: State, x: seq<byte>, y: seq<byte>)
    requires Inv(s, x, y) && Run(s, es, t) && 1 <= s.port <= 65535
    ensures Inv(t, x, y) && t.port == s.port && t.allowed == s.allowed
    decreases |es|
  {
    if es != [] {
      StepKeeps(s, es[0], x, y);
      RunKeeps(Next(s, es[0]), es[1..], t, x, y);
    }
  }

  /** t is reached by a connection on `port`, where the external client sends x and the
      local service sends y. */
  ghost predicate Reaches(port: nat, allowed: set<nat>, x: seq<byte>, y: seq<byte>, es: seq<Event>, t: State) {
    1 <= port <= 65535 && Run(Init(port, allowed, x, y), es, t)
  }

  lemma Reached(port: nat, allowed: set<nat>, x: seq<byte>, y: seq<byte>, es: seq<Event>, t: State)
    requires Reaches(port, allowed, x, y, es, t)
    ensures Inv(t, x, y) && t.port == port && t.allowed == allowed
  {
    InitInv(port, allowed, x, y);
    RunKeeps(Init(port, allowed, x, y), es, t, x, y);
  }

  // --- What the tunnel guarantees ---

  /** Whatever fails, each application gets a prefix of what the other one sent; and once the
      end marker of a direction was read, it got all that was read from the sender, which is
      everything unless the sender's own connection failed. */
  lemma DeliveredIsPrefix(port: nat, allowed: set<nat>, x: seq<byte>, y: seq<byte>, es: seq<Event>, t: State)
    requires Reaches(port, allowed, x, y, es, t)
    ensures t.up.delivered <= x && t.down.delivered <= y
    ensures t.up.reading == L.Done(true) ==> t.up.delivered == t.up.read && (!t.up.lost ==> t.up.delivered == x)
    ensures t.down.reading == L.Done(true) ==>
            t.down.delivered == t.down.read && (!t.down.lost ==> t.down.delivered == y)
  {
    Reached(port, allowed, x, y, es, t);
    assert L.Inv(t.up, x) && L.Inv(t.down, y);
    Empty(t.up.read);
    Empty(t.down.read);
  }

  /** Any answer but OK, or none, delivers nothing in either direction and dials nothing, and
      forward delivers nothing to its client unless it recorded "ok". */
  lemma RefusalDeliversNothing(port: nat, allowed: set<nat>, x: seq<byte>, y: seq<byte>, es: seq<Event>, t: State)
    requires Reaches(port, allowed, x, y, es, t)
    ensures t.ack != Sent(ACK_OK) ==> t.up.delivered == [] && t.down.delivered == [] && t.dialed == {}
    ensures t.result != Labelled(OK) ==> t.down.delivered == []
    ensures t.result.Labelled? ==> t.ack.Sent? && t.result.l == AckResult(t.ack.status)
  {
    Reached(port, allowed, x, y, es, t);
  }

  // --- What the client answers ---

  /** What one decision leaves behind: the answer is the only byte on the way back, and the port
      counts as dialed and is relayed for exactly when the dial was allowed and succeeded. */
  lemma DecideAnswers(s: State, draining: bool, dialOk: bool)
    requires Enabled(s, Decide(draining, dialOk))
    ensures var t, port := Next(s, Decide(draining, dialOk)), s.client.port;
            && t.ack.Sent? && t.down.lead == [t.ack.status]
            && (t.ack == Sent(0) <==> !draining && port in s.allowed && dialOk)
            && (t.ack == Sent(1) <==> !draining && port !in s.allowed)
            && (t.ack == Sent(2) <==> !draining && port in s.allowed && !dialOk)
            && (t.ack == Sent(3) <==> draining)
            && t.dialed == s.dialed + (if !draining && port in s.allowed && dialOk then {port} else {})
            && (t.client.Forwarding? <==> !draining && port in s.allowed && dialOk)
            && (t.client.Left? <==> draining || port !in s.allowed || !dialOk)
  {
  }

  /** A bad header is answered with a refusal, unless the stream ended before or right after its
      first byte: then nothing is answered. Either way the client leaves. */
  lemma BadHeaderAnswers(s: State)
    requires Enabled(s, HeaderEnds)
    ensures var t := Next(s, HeaderEnds);
            && t.client.Left? && t.dialed == s.dialed
            && if L.Queue(s.up) == [] || L.Queue(s.up) == [2] then t.ack == s.ack && t.down.lead == s.down.lead
               else t.ack == Sent(3) && t.down.lead == [3]
  {
    RefusedExactly(L.Queue(s.up));
  }

  /** A forward that cannot send its header or gets no answer ends with that and delivers
      nothing more. */
  lemma ForwardGivesUp(s: State, e: Event)
    requires Enabled(s, e) && (e.HeaderFails? || e.AckTimeout?)
    ensures Next(s, e).server.Gone? && Next(s, e).result == (if e.AckTimeout? then TimedOut else HeaderFailed)
    ensures Next(s, e).down.reading.Done? && Next(s, e).up.writing.Stopped?
    ensures Next(s, e).down.delivered == s.down.delivered
  {
  }

  /** Until the client has decided there is no answer; then the answer stays. */
  ghost predicate Undecided(s: State) {
    (s.client.AwaitingHeader? || s.client.Deciding?) && s.ack == NoAck && s.dialed == {}
  }

  /** Which answer a run gives from a state in which none was given yet. */
  ghost predicate AnsweredBy(port: nat, allowed: set<nat>, es: seq<Event>, t: State) {
    && (t.ack == Sent(0) <==> Decide(false, true) in es && port in allowed)
    && (t.ack == Sent(1) <==> (Decide(false, true) in es || Decide(false, false) in es) && port !in allowed)
    && (t.ack == Sent(2) <==> Decide(false, false) in es && port in allowed)
    && (t.dialed == {} <==> t.ack != Sent(0))
  }

  ghost predicate Decided(s: State) { s.client.Forwarding? || s.client.Left? }

  lemma DecidedStep(s: State, e: Event)
    requires Enabled(s, e) && Decided(s)
    ensures !e.Decide? && Next(s, e).ack == s.ack && Next(s, e).dialed == s.dialed && Decided(Next(s, e))
  {
  }

  lemma {:induction false} DecidedRun(s: State, es: seq<Event>, t: State)
    requires Run(s, es, t) && Decided(s)
    ensures (forall e | e in es :: !e.Decide?) && t.ack == s.ack && t.dialed == s.dialed
    decreases |es|
  {
    if es != [] {
      DecidedStep(s, es[0]);
      DecidedRun(Next(s, es[0]), es[1..], t);
      assert es == [es[0]] + es[1..];
    }
  }

  lemma DecideRun(s: State, e: Event, more: seq<Event>, t: State)
    requires Enabled(s, e) && e.Decide? && Undecided(s) && s.client.port == s.port && Run(Next(s, e), more, t)
    ensures AnsweredBy(s.port, s.allowed, [e] + more, t)
  {
    DecideAnswers(s, e.draining, e.dialOk);
    DecidedRun(Next(s, e), more, t);
  }

  lemma BadHeaderRun(s: State, more: seq<Event>, t: State)
    requires Enabled(s, HeaderEnds) && Undecided(s) && Run(Next(s, HeaderEnds), more, t)
    ensures AnsweredBy(s.port, s.allowed, [HeaderEnds] + more, t)
  {
    BadHeaderAnswers(s);
    DecidedRun(Next(s, HeaderEnds), more, t);
  }

  lemma UndecidedStep(s: State, e: Event)
    requires Enabled(s, e) && Undecided(s) && !e.Decide? && !e.HeaderEnds?
    ensures Undecided(Next(s, e))
  {
  }

  lemma {:induction false} UndecidedRun(s: State, es: seq<Event>, t: State, x: seq<byte>, y: seq<byte>)
    requires Inv(s, x, y) && Run(s, es, t) && 1 <= s.port <= 65535 && Undecided(s)
    ensures AnsweredBy(s.port, s.allowed, es, t)
    decreases |es|
  {
    if es != [] {
      var e, more := es[0], es[1..];
      assert es == [e] + more;
      if e.Decide? {
        DecideRun(s, e, more, t);
      } else if e.HeaderEnds? {
        BadHeaderRun(s, more, t);
      } else {
        StepKeeps(s, e, x, y);
        UndecidedStep(s, e);
        UndecidedRun(Next(s, e), more, t, x, y);
      }
    }
  }

  /** Over whole runs: the client answers that it dialed exactly when it was not draining, the
      port is in its configuration and the dial succeeded; that the dial failed, or that the
      port is not allowed, exactly when that is so; and it has dialed only if it said so. */
  lemma AnswerIsTheDialsOutcome(port: nat, allowed: set<nat>, x: seq<byte>, y: seq<byte>, es: seq<Event>, t: State)
    requires Reaches(port, allowed, x, y, es, t)
    ensures t.ack == Sent(0) <==> Decide(false, true) in es && port in allowed
    ensures t.ack == Sent(1) <==> (Decide(false, true) in es || Decide(false, false) in es) && port !in allowed
    ensures t.ack == Sent(2) <==> Decide(false, false) in es && port in allowed
    ensures t.dialed == if t.ack == Sent(0) then {port} else {}
  {
    InitInv(port, allowed, x, y);
    UndecidedRun(Init(port, allowed, x, y), es, t, x, y);
    assert t.dialed <= {port} * allowed by { Reached(port, allowed, x, y, es, t); }
  }

  /** The client dials nothing but the service of this connection's port, and only if that
      port is in its pushed configuration. */
  lemma DialsOnlyItsPort(port: nat, allowed: set<nat>, x: seq<byte>, y: seq<byte>, es: seq<Event>, t: State, p: nat)
    requires Reaches(port, allowed, x, y, es, t) && p in t.dialed
    ensures p == port && port in allowed
  {
    Reached(port, allowed, x, y, es, t);
  }

  /** As long as nothing fails, no direction loses a byte, however far the other one is: what
      was delivered, what is in the stream and what is still to be read make up the whole. */
  lemma HalfCloseKeepsTheOtherDirection(port: nat, allowed: set<nat>, x: seq<byte>, y: seq<byte>, es: seq<Event>,
                                        t: State)
    requires Reaches(port, allowed, x, y, es, t) && !t.failed && t.ack == Sent(ACK_OK)
    ensures t.up.reading.Done? ==> t.up.delivered == x
    ensures !t.up.reading.Done? ==> t.up.delivered + Decode(t.up.remain, t.up.rest).0 + t.up.source == x
    ensures t.down.reading.Done? ==> t.down.delivered == y
    ensures !t.down.reading.Done? ==> t.down.delivered + Decode(t.down.remain, t.down.rest).0 + t.down.source == y
  {
    Reached(port, allowed, x, y, es, t);
    DeliveredIsPrefix(port, allowed, x, y, es, t);
    assert L.Whole(t.up) && L.Whole(t.down);
  }

  /** A forward that returned without a failure recorded the label of the client's answer. */
  lemma ResultIsTheAnswer(port: nat, allowed: set<nat>, x: seq<byte>, y: seq<byte>, es: seq<Event>, t: State)
    requires Reaches(port, allowed, x, y, es, t) && !t.failed && t.server.Gone?
    ensures t.ack.Sent? && t.result == Labelled(AckResult(t.ack.status))
    ensures t.result == Labelled(OK) <==> t.ack == Sent(ACK_OK)
  {
    assert ServerInv(t) && AckInv(t) && (t.result.NoResult? || t.result.Labelled?) by {
      Reached(port, allowed, x, y, es, t);
    }
  }

  /** When both ends have returned and nothing failed, everything arrived both ways, or the
      stream was refused and nothing did. */
  lemma CompleteWhenBothReturned(port: nat, allowed: set<nat>, x: seq<byte>, y: seq<byte>, es: seq<Event>, t: State)
    requires Reaches(port, allowed, x, y, es, t) && !t.failed && t.server.Gone? && t.client.Left?
    ensures if t.ack == Sent(ACK_OK) then t.up.delivered == x && t.down.delivered == y
            else t.up.delivered == [] && t.down.delivered == []
  {
    if t.ack == Sent(ACK_OK) {
      assert t.up.reading.Done? && t.down.reading.Done? by {
        Reached(port, allowed, x, y, es, t);
        assert ServerInv(t) && ClientInv(t);
      }
      HalfCloseKeepsTheOtherDirection(port, allowed, x, y, es, t);
    } else {
      RefusalDeliversNothing(port, allowed, x, y, es, t);
    }
  }

  /** The tunnel never deadlocks: until both ends have returned, some step that is not a
      failure changes the state. */
  lemma NeverStuck(port: nat, allowed: set<nat>, x: seq<byte>, y: seq<byte>, es: seq<Event>, t: State)
    returns (e: Event)
    requires Reaches(port, allowed, x, y, es, t) && !t.failed && !(t.server.Gone? && t.client.Left?)
    ensures Enabled(t, e) && !Next(t, e).failed && Next(t, e) != t
  {
    Reached(port, allowed, x, y, es, t);
    if t.server.Opening? {
      e := SendHeader;
    } else if t.client.AwaitingHeader? || t.client.Deciding? {
      e := ClientCanProceed(t, x, y);
    } else if t.server.AwaitingAck? {
      e := AckCanProceed(t, x, y);
    } else {
      e := CopiesCanProceed(t, x, y);
    }
  }

  lemma ClientCanProceed(t: State, x: seq<byte>, y: seq<byte>) returns (e: Event)
    requires Inv(t, x, y) && !t.failed && 1 <= t.port <= 65535
    requires !t.server.Opening? && (t.client.AwaitingHeader? || t.client.Deciding?)
    ensures Enabled(t, e) && !Next(t, e).failed && Next(t, e) != t
  {
    if t.client.Deciding? {
      e := Decide(true, false);
    } else {
      HeaderSeen(t.up, t.port);
      if t.up.avail < |t.up.lead| {
        e := Up(L.Arrive(1));
      } else {
        e := ReadHeader;
      }
    }
  }

  lemma AckCanProceed(t: State, x: seq<byte>, y: seq<byte>) returns (e: Event)
    requires Inv(t, x, y) && !t.failed && t.server.AwaitingAck? && (t.client.Forwarding? || t.client.Left?)
    ensures Enabled(t, e) && !Next(t, e).failed && Next(t, e) != t
  {
    if t.down.avail == 0 {
      e := Down(L.Arrive(1));
    } else {
      e := ReadAck;
    }
  }

  lemma CopiesCanProceed(t: State, x: seq<byte>, y: seq<byte>) returns (e: Event)
    requires Inv(t, x, y) && !t.failed && !(t.server.Gone? && t.client.Left?)
    requires (t.server.Relaying? || t.server.Gone?) && (t.client.Forwarding? || t.client.Left?)
    ensures Enabled(t, e) && !Next(t, e).failed && Next(t, e) != t
  {
    if t.up.reading.Relaying? {
      var l := L.CanProceed(t.up, x);
      e := Up(l);
    } else if t.down.reading.Relaying? {
      var l := L.CanProceed(t.down, y);
      e := Down(l);
    } else if t.server.Relaying? {
      e := ServerReturns;
    } else {
      e := ClientReturns;
    }
  }
}
