/** Every request of a node session, interleaved in any way.

    A state is the lock-protected core, the phase of each request and the session's atomic
    counters. An event is one atomic action: one chMu critical section, one atomic store,
    one channel receive. A hand-off is not atomic here: `handing` says that somebody holds
    chMu inside handoffLocked, and channels may die or the limit may be stored between two
    of its rounds. */
module SlotSystem {
  import opened Basics
  import opened Counting
  import opened Outcomes
  import opened SlotCore

  datatype Why = TimedOut | SessionClosed | Cancelled

  datatype OpenError = Draining | Saturated | NoChannel | Closed | ContextDone

  datatype Phase =
    | Arrived                           // counted, about to call acquire
    | Parked(w: nat)                    // in the select on waiter w
    | Leaving(w: nat, why: Why)         // another select case fired; abandon is next
    | Collecting(w: nat)                // abandon found the slot handed; the receive is next
    | GaveUp(why: Why)                  // abandon removed the waiter; returning an error
    | Holding(c: nat)                   // has a slot, opening the smux stream
    | Dropping(c: nat)                  // the open failed and the slot is released; RemoveChannel is next
    | Streaming(c: nat)                 // OpenStream returned the stream
    | Refused(err: OpenError)           // OpenStream returned an error
    | Settled(c: nat, result: Label)     // result recorded, CloseStream is next
    | Finished(result: Label, hadStream: bool)

  datatype Event =
    | Arrive(r: nat)
    | ArriveDraining(r: nat)
    | Reserve(r: nat, c: nat)
    | JoinTail(r: nat)
    | Receive(r: nat)
    | GiveUp(r: nat, why: Why)
    | Abandon(r: nat)
    | Collect(r: nat)
    | Return(r: nat)
    | OpenOk(r: nat)
    | OpenFail(r: nat)
    | Drop(r: nat)
    | Record(r: nat, result: Label)
    | CloseStream(r: nat)
    | HandTo(c: nat)
    | EndHandoff
    | AddChannel(c: nat, id: int)
    | RemoveChannel(c: nat)
    | Die(c: nat)
    | StoreMax(max: int)
    | LockConfig
    | CloseSession
    | EmptyPool

  datatype State = State(
    core: Core<nat, nat>,
    reqs: map<nat, Phase>,
    depth: int,                // queueDepth
    openedCount: int,          // stats.Opened
    results: map<Label, int>,  // the five result counters
    handing: bool,             // chMu is held inside handoffLocked
    pending: nat,              // SetConfig calls between their store and their lock
    done: bool,                // the done channel is closed
    fired: set<nat>,           // requests whose queue timer has fired
    owner: map<nat, nat>,      // history: the request that parked each waiter
    served: seq<nat>,          // history: waiters in the order they were handed a slot
    gone: set<nat>,            // history: waiters abandoned before that
    cap: int)                  // history: the largest limit so far

  ghost function Init(max: int): State {
    State(Core(map[], map[], max, [], map[], 0), map[], 0, 0,
          map[OK := 0, Timeout := 0, NotAllowed := 0, DialFailed := 0, Rejected := 0],
          false, 0, false, {}, map[], [], {}, max)
  }

  /** The ticket the next waiter gets: waiters are numbered in the order they park. */
  ghost function NextTicket(s: State): nat { |s.core.cells| }

  ghost predicate Enabled(s: State, e: Event) {
    match e
    case Arrive(r) => r !in s.reqs
    case ArriveDraining(r) => r !in s.reqs
    case Reserve(r, c) => At(s, r) && s.reqs[r] == Arrived && !s.handing && s.core.queue == [] && CanBook(s.core, c)
    case JoinTail(r) => At(s, r) && s.reqs[r] == Arrived && !s.handing && (s.core.queue != [] || Full(s.core))
    case Receive(r) => At(s, r) && s.reqs[r].Parked? && Delivered(s, s.reqs[r].w)
    case GiveUp(r, why) =>
      && At(s, r) && s.reqs[r].Parked?
      && (why == TimedOut ==> r !in s.fired)
      && (why == SessionClosed ==> s.done)
    case Abandon(r) => At(s, r) && s.reqs[r].Leaving? && !s.handing && s.reqs[r].w in s.core.cells
    case Collect(r) => At(s, r) && s.reqs[r].Collecting? && Delivered(s, s.reqs[r].w)
    case Return(r) => At(s, r) && s.reqs[r].GaveUp? && !s.handing
    case OpenOk(r) => At(s, r) && s.reqs[r].Holding?
    case OpenFail(r) => At(s, r) && s.reqs[r].Holding? && !s.handing && s.reqs[r].c in s.core.chans
    case Drop(r) => At(s, r) && s.reqs[r].Dropping? && !s.handing && s.reqs[r].c in s.core.chans
    case Record(r, result) =>
      && At(s, r) && result in s.results
      && (s.reqs[r].Streaming? || (s.reqs[r].Refused? && result == Rejected))
    case CloseStream(r) => At(s, r) && s.reqs[r].Settled? && !s.handing && s.reqs[r].c in s.core.chans
    case HandTo(c) => s.handing && s.core.queue != [] && CanBook(s.core, c)
    case EndHandoff => s.handing && (s.core.queue == [] || Full(s.core))
    case AddChannel(c, id) => !s.handing && c !in s.core.chans
    case RemoveChannel(c) => !s.handing && c in s.core.chans
    case Die(c) => c in s.core.chans
    case StoreMax(_) => true
    case LockConfig => !s.handing && s.pending > 0
    case CloseSession => !s.done
    case EmptyPool => !s.handing && s.done
  }

  ghost predicate At(s: State, r: nat) { r in s.reqs }

  ghost predicate Delivered(s: State, w: nat) {
    w in s.core.cells && s.core.cells[w].ready.Some?
  }

  ghost function Next(s: State, e: Event): State
    requires Enabled(s, e)
  {
    match e
    case Arrive(r) => s.(reqs := s.reqs[r := Arrived], depth := s.depth + 1)
    case ArriveDraining(r) => s.(reqs := s.reqs[r := Refused(Draining)])
    case Reserve(r, c) => s.(reqs := s.reqs[r := Holding(c)], core := Book(s.core, c))
    case JoinTail(r) =>
      var w := NextTicket(s);
      s.(reqs := s.reqs[r := Parked(w)], core := Park(s.core, w), owner := s.owner[w := r])
    case Receive(r) => TakeDelivery(s, r)
    case GiveUp(r, why) =>
      s.(reqs := s.reqs[r := Leaving(s.reqs[r].w, why)], fired := if why == TimedOut then s.fired + {r} else s.fired)
    case Abandon(r) =>
      var w := s.reqs[r].w;
      if s.core.cells[w].handed then s.(reqs := s.reqs[r := Collecting(w)])
      else s.(reqs := s.reqs[r := GaveUp(s.reqs[r].why)], core := s.core.(queue := Without(s.core.queue, w)),
              gone := s.gone + {w})
    case Collect(r) => TakeDelivery(s, r)
    case Return(r) => s.(reqs := s.reqs[r := Refused(Verdict(s, s.reqs[r].why))], depth := s.depth - 1)
    case OpenOk(r) =>
      s.(reqs := s.reqs[r := Streaming(s.reqs[r].c)], depth := s.depth - 1, openedCount := s.openedCount + 1)
    case OpenFail(r) =>
      var c := s.reqs[r].c;
      s.(reqs := s.reqs[r := Dropping(c)], core := Unbook(s.core, c), handing := true)
    case Drop(r) => s.(reqs := s.reqs[r := Arrived], core := RemoveChan(s.core, s.reqs[r].c))
    case Record(r, result) =>
      s.(reqs := s.reqs[r := if s.reqs[r].Streaming? then Settled(s.reqs[r].c, result) else Finished(result, false)],
         results := s.results[result := s.results[result] + 1])
    case CloseStream(r) =>
      s.(reqs := s.reqs[r := Finished(s.reqs[r].result, true)], core := Unbook(s.core, s.reqs[r].c), handing := true)
    case HandTo(c) => s.(core := Serve(s.core, c), served := s.served + [s.core.queue[0]])
    case EndHandoff => s.(handing := false)
    case AddChannel(c, id) => s.(core := AddChan(s.core, c, Chan(id, 0, false)), handing := true)
    case RemoveChannel(c) => s.(core := RemoveChan(s.core, c))
    case Die(c) => s.(core := Kill(s.core, c))
    case StoreMax(max) =>
      s.(core := s.core.(max := max), pending := s.pending + 1, cap := if max > s.cap then max else s.cap)
    case LockConfig => s.(handing := true, pending := s.pending - 1)
    case CloseSession => s.(done := true)
    case EmptyPool => s.(core := s.core.(pool := map[]))
  }

  /** The slot leaves the mailbox and is in the request's hand. */
  ghost function TakeDelivery(s: State, r: nat): State
    requires At(s, r) && (s.reqs[r].Parked? || s.reqs[r].Collecting?) && Delivered(s, s.reqs[r].w)
  {
    var w := s.reqs[r].w;
    s.(reqs := s.reqs[r := Holding(s.core.cells[w].ready.value)],
       core := s.core.(cells := s.core.cells[w := s.core.cells[w].(ready := None)]))
  }

  ghost function Verdict(s: State, why: Why): OpenError {
    match why
    case TimedOut => if s.core.pool == map[] then NoChannel else Saturated
    case SessionClosed => Closed
    case Cancelled => ContextDone
  }

  ghost predicate Run(s: State, es: seq<Event>, t: State)
    decreases |es|
  {
    if es == [] then t == s else Enabled(s, es[0]) && Run(Next(s, es[0]), es[1..], t)
  }

  // --- The invariant ---

  ghost function InHand(c: nat): Phase -> bool {
    (p: Phase) => (p.Holding? || p.Streaming? || p.Settled?) && p.c == c
  }

  ghost function Buffered(c: nat): Cell<nat> -> bool {
    (k: Cell<nat>) => k.ready == Some(c)
  }

  ghost function HasSlot(): Phase -> bool { (p: Phase) => p.Holding? || p.Streaming? || p.Settled? }

  ghost function HasMail(): Cell<nat> -> bool { (k: Cell<nat>) => k.ready.Some? }

  ghost function Loads(s: Core<nat, nat>): map<nat, int> { map c | c in s.chans :: s.chans[c].active }

  /** How many slots on c are out: in some request's hand, or on the way to one. */
  ghost function Holders(s: State, c: nat): nat {
    Count(s.reqs, InHand(c)) + Count(s.core.cells, Buffered(c))
  }

  /** Each channel's count is the number of slots on it that are out. */
  ghost predicate Accounted(s: State) {
    forall c | c in s.core.chans :: s.core.chans[c].active == Holders(s, c)
  }

  /** activeStreams is the sum of the channels' counts, removed channels included. */
  ghost predicate Totalled(s: State) {
    s.core.total == Sum(Loads(s.core))
  }

  /** activeStreams is the number of holders. */
  ghost predicate Matched(s: State) {
    s.core.total == Count(s.reqs, HasSlot()) + Count(s.core.cells, HasMail())
  }

  /** Slots are only ever taken on channels that were added. */
  ghost predicate Grounded(s: State) {
    && (forall r | r in s.reqs && (HasSlot()(s.reqs[r]) || s.reqs[r].Dropping?) :: s.reqs[r].c in s.core.chans)
    && (forall w | w in s.core.cells && s.core.cells[w].ready.Some? :: s.core.cells[w].ready.value in s.core.chans)
  }

  /** Tickets are given out in order. */
  ghost predicate Tickets(s: State) {
    forall w: nat :: w in s.core.cells <==> w < NextTicket(s)
  }

  /** Arrival order: the queue and the history of hand-overs both follow the tickets, and
      whoever is still queued came after everybody who was served. */
  ghost predicate Fifo(s: State) {
    && Increasing(s.core.queue)
    && Increasing(s.served)
    && (forall a, b | a in s.served && b in s.core.queue :: a < b)
  }

  /** Every waiter is queued, served or gone. */
  ghost predicate Placed(s: State) {
    && (forall w | w in s.served :: w in s.core.cells && s.core.cells[w].handed)
    && (forall w | w in s.gone :: w in s.core.cells && !s.core.cells[w].handed && w !in s.core.queue)
    && (forall w | w in s.core.cells :: w in s.core.queue || w in s.served || w in s.gone)
  }

  ghost predicate WaitsOn(p: Phase, w: nat) { (p.Parked? || p.Leaving? || p.Collecting?) && p.w == w }

  /** A waiter belongs to the one request that waits on it until its slot is collected. */
  ghost predicate Life(s: State) {
    && s.owner.Keys == s.core.cells.Keys
    && (forall w | w in s.core.cells && s.core.cells[w].ready.Some? :: s.core.cells[w].handed)
    && (forall w | w in s.core.cells && (w in s.core.queue || s.core.cells[w].ready.Some?) ::
          s.owner[w] in s.reqs && WaitsOn(s.reqs[s.owner[w]], w))
    && (forall r | r in s.reqs && (s.reqs[r].Parked? || s.reqs[r].Leaving? || s.reqs[r].Collecting?) ::
          && s.reqs[r].w in s.core.cells && s.owner[s.reqs[r].w] == r
          && (s.core.cells[s.reqs[r].w].ready.Some? || (s.reqs[r].w in s.core.queue && !s.reqs[r].Collecting?)))
  }

  ghost function InOpenStream(): Phase -> bool {
    (p: Phase) => p.Arrived? || p.Parked? || p.Leaving? || p.Collecting? || p.GaveUp? || p.Holding? || p.Dropping?
  }

  ghost function Labelled(l: Label): Phase -> bool {
    (p: Phase) => (p.Settled? || p.Finished?) && p.result == l
  }

  ghost function WasOpened(): Phase -> bool {
    (p: Phase) => p.Streaming? || p.Settled? || (p.Finished? && p.hadStream)
  }

  ghost predicate Counters(s: State) {
    && s.depth == Count(s.reqs, InOpenStream())
    && s.openedCount == Count(s.reqs, WasOpened())
    && (forall l: Label :: l in s.results && s.results[l] == Count(s.reqs, Labelled(l)))
    && (forall r | r in s.reqs && s.reqs[r].Finished? && !s.reqs[r].hadStream :: s.reqs[r].result == Rejected)
  }

  ghost predicate Limits(s: State) {
    && s.core.max <= s.cap
    && forall c | c in s.core.chans :: s.core.chans[c].active <= s.cap || s.core.chans[c].active <= 0
  }

  /** With the lock free and no raise on its way to the lock, nobody waits for a free slot. */
  ghost predicate NoLostWakeup(s: State) {
    !s.handing && s.pending == 0 ==> s.core.queue == [] || Full(s.core)
  }

  ghost predicate Inv(s: State) {
    && Wf(s.core) && Grounded(s) && Accounted(s) && Totalled(s) && Matched(s) && Tickets(s) && Fifo(s) && Placed(s)
    && Life(s) && Counters(s) && Limits(s) && NoLostWakeup(s)
  }
}
