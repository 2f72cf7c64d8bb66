/** Every event keeps the invariant of SlotSystem, one part at a time. */
module SlotInvariant {
  import opened Basics
  import opened Counting
  import opened Outcomes
  import opened SlotCore
  import opened SlotSystem

  /** The next ticket is unused. */
  ghost predicate NewTicket(s: State) { NextTicket(s) !in s.core.cells }

  /** The request an event moves, if it moves one. */
  ghost function Mover(e: Event): Option<nat> {
    match e
    case HandTo(_) => None
    case EndHandoff => None
    case AddChannel(_, _) => None
    case RemoveChannel(_) => None
    case Die(_) => None
    case StoreMax(_) => None
    case LockConfig => None
    case CloseSession => None
    case EmptyPool => None
    case _ => Some(e.r)
  }

  /** The waiter whose mailbox an event touches, if any. */
  ghost function Touched(s: State, e: Event): Option<nat>
    requires Enabled(s, e)
  {
    match e
    case JoinTail(_) => Some(NextTicket(s))
    case Receive(r) => Some(s.reqs[r].w)
    case Collect(r) => Some(s.reqs[r].w)
    case HandTo(_) => Some(s.core.queue[0])
    case _ => None
  }

  /** Events of the pool, of requests on their way in, of waiting ones, and of those that have
      a slot. */
  ghost predicate OfPool(e: Event) { Mover(e) == None }

  ghost predicate OfEntry(e: Event) { e.Arrive? || e.ArriveDraining? || e.Reserve? || e.JoinTail? }

  ghost predicate OfSlot(e: Event) {
    e.OpenOk? || e.OpenFail? || e.Drop? || e.Record? || e.CloseStream?
  }

  ghost predicate OfWait(e: Event) { !OfPool(e) && !OfEntry(e) && !OfSlot(e) }

  /** An event changes at most one phase and one mailbox. */
  ghost predicate ChangesOne(s: State, e: Event)
    requires Enabled(s, e)
  {
    var t := Next(s, e);
    && (match Mover(e)
        case None => t.reqs == s.reqs
        case Some(r) => r in t.reqs && t.reqs == s.reqs[r := t.reqs[r]])
    && (match Touched(s, e)
        case None => t.core.cells == s.core.cells
        case Some(w) => w in t.core.cells && t.core.cells == s.core.cells[w := t.core.cells[w]])
  }

  lemma PoolOneChange(s: State, e: Event)
    requires Enabled(s, e) && OfPool(e)
    ensures ChangesOne(s, e)
  {
  }

  lemma EntryOneChange(s: State, e: Event)
    requires Enabled(s, e) && OfEntry(e)
    ensures ChangesOne(s, e)
  {
  }

  lemma WaitOneChange(s: State, e: Event)
    requires Enabled(s, e) && OfWait(e)
    ensures ChangesOne(s, e)
  {
  }

  lemma SlotOneChange(s: State, e: Event)
    requires Enabled(s, e) && OfSlot(e)
    ensures ChangesOne(s, e)
  {
  }

  lemma OneChange(s: State, e: Event)
    requires Enabled(s, e)
    ensures ChangesOne(s, e)
  {
    if OfPool(e) {
      PoolOneChange(s, e);
    } else if OfEntry(e) {
      EntryOneChange(s, e);
    } else if OfSlot(e) {
      SlotOneChange(s, e);
    } else {
      WaitOneChange(s, e);
    }
  }

  ghost function One(b: bool): int { if b then 1 else 0 }

  /** How an event changes the number of slots in hand, and in mailboxes, on c. */
  lemma InHandChange(s: State, e: Event, c: nat)
    requires Enabled(s, e)
    ensures match Mover(e)
            case None => Next(s, e).reqs == s.reqs
            case Some(r) =>
              && r in Next(s, e).reqs
              && Count(Next(s, e).reqs, InHand(c)) == Count(s.reqs, InHand(c))
                 + One(InHand(c)(Next(s, e).reqs[r])) - One(r in s.reqs && InHand(c)(s.reqs[r]))
  {
    OneChange(s, e);
    if Mover(e).Some? { CountUpdate(s.reqs, Mover(e).value, Next(s, e).reqs[Mover(e).value], InHand(c)); }
  }

  lemma BufferedChange(s: State, e: Event, c: nat)
    requires Enabled(s, e)
    ensures match Touched(s, e)
            case None => Next(s, e).core.cells == s.core.cells
            case Some(w) =>
              && w in Next(s, e).core.cells
              && Count(Next(s, e).core.cells, Buffered(c)) == Count(s.core.cells, Buffered(c))
                 + One(Next(s, e).core.cells[w].ready == Some(c))
                 - One(w in s.core.cells && s.core.cells[w].ready == Some(c))
  {
    OneChange(s, e);
    if Touched(s, e).Some? {
      CountUpdate(s.core.cells, Touched(s, e).value, Next(s, e).core.cells[Touched(s, e).value], Buffered(c));
    }
  }

  lemma LoadsUpdate(s: Core<nat, nat>, c: nat, chan: Chan)
    ensures Sum(Loads(s.(chans := s.chans[c := chan])))
         == Sum(Loads(s)) - (if c in s.chans then s.chans[c].active else 0) + chan.active
  {
    var t := s.(chans := s.chans[c := chan]);
    assert Loads(t) == Loads(s)[c := chan.active];
    SumUpdate(Loads(s), c, chan.active);
  }

  /** A channel nobody has added yet has no holders. */
  lemma NewChannelIsFree(s: State, c: nat)
    requires Grounded(s) && c !in s.core.chans
    ensures Holders(s, c) == 0
  {
    assert (set r | r in s.reqs && InHand(c)(s.reqs[r])) == {};
    assert (set w | w in s.core.cells && Buffered(c)(s.core.cells[w])) == {};
  }

  // --- Conservation ---

  ghost predicate MovesSlots(e: Event) {
    e.Reserve? || e.OpenFail? || e.CloseStream? || e.HandTo? || e.Receive? || e.Collect?
  }

  lemma OthersKeepActive(s: State, e: Event, c: nat)
    requires Enabled(s, e) && !MovesSlots(e) && c in s.core.chans
    ensures c in Next(s, e).core.chans && Next(s, e).core.chans[c].active == s.core.chans[c].active
  {
  }

  lemma OthersKeepHolders(s: State, e: Event, c: nat)
    requires NewTicket(s) && Enabled(s, e) && !MovesSlots(e)
    ensures Holders(Next(s, e), c) == Holders(s, c)
  {
    InHandChange(s, e, c);
    BufferedChange(s, e, c);
  }

  lemma ChannelAccountedStep(s: State, e: Event, c: nat)
    requires Wf(s.core) && NewTicket(s) && Enabled(s, e)
    requires c in s.core.chans && s.core.chans[c].active == Holders(s, c)
    ensures c in Next(s, e).core.chans && Next(s, e).core.chans[c].active == Holders(Next(s, e), c)
  {
    if MovesSlots(e) {
      InHandChange(s, e, c);
      BufferedChange(s, e, c);
      if e.HandTo? { assert s.core.queue[0] in s.core.queue; }
    } else {
      OthersKeepActive(s, e, c);
      OthersKeepHolders(s, e, c);
    }
  }

  lemma NewChannelAccounted(s: State, c: nat, id: int)
    requires Grounded(s) && NewTicket(s) && Enabled(s, AddChannel(c, id))
    ensures Holders(Next(s, AddChannel(c, id)), c) == 0
  {
    OthersKeepHolders(s, AddChannel(c, id), c);
    NewChannelIsFree(s, c);
  }

  lemma AccountedStep(s: State, e: Event)
    requires Accounted(s) && Grounded(s) && Wf(s.core) && NewTicket(s) && Enabled(s, e)
    ensures Accounted(Next(s, e))
  {
    forall c | c in Next(s, e).core.chans
      ensures Next(s, e).core.chans[c].active == Holders(Next(s, e), c)
    {
      if c in s.core.chans {
        ChannelAccountedStep(s, e, c);
      } else {
        NewChannelAccounted(s, c, e.id);
      }
    }
  }

  /** The channel whose entry an event changes, if any. */
  ghost function Loaded(s: State, e: Event): Option<nat>
    requires Enabled(s, e)
  {
    match e
    case Reserve(_, c) => Some(c)
    case HandTo(c) => Some(c)
    case OpenFail(r) => Some(s.reqs[r].c)
    case CloseStream(r) => Some(s.reqs[r].c)
    case AddChannel(c, _) => Some(c)
    case RemoveChannel(c) => Some(c)
    case Die(c) => Some(c)
    case Drop(r) => Some(s.reqs[r].c)
    case _ => None
  }

  ghost predicate LoadsOne(s: State, e: Event)
    requires Enabled(s, e)
  {
    var t := Next(s, e);
    match Loaded(s, e)
    case None => t.core.chans == s.core.chans && t.core.total == s.core.total
    case Some(c) =>
      && c in t.core.chans && t.core.chans == s.core.chans[c := t.core.chans[c]]
      && t.core.total - s.core.total == t.core.chans[c].active - if c in s.core.chans then s.core.chans[c].active else 0
  }

  lemma PoolOneLoad(s: State, e: Event)
    requires Enabled(s, e) && OfPool(e)
    ensures LoadsOne(s, e)
  {
  }

  lemma EntryOneLoad(s: State, e: Event)
    requires Enabled(s, e) && OfEntry(e)
    ensures LoadsOne(s, e)
  {
  }

  lemma WaitOneLoad(s: State, e: Event)
    requires Enabled(s, e) && OfWait(e)
    ensures LoadsOne(s, e)
  {
  }

  lemma SlotOneLoad(s: State, e: Event)
    requires Enabled(s, e) && OfSlot(e)
    ensures LoadsOne(s, e)
  {
  }

  /** An event changes at most one channel, and activeStreams by as much as that one's count. */
  lemma OneLoad(s: State, e: Event)
    requires Enabled(s, e)
    ensures LoadsOne(s, e)
  {
    if OfPool(e) {
      PoolOneLoad(s, e);
    } else if OfEntry(e) {
      EntryOneLoad(s, e);
    } else if OfSlot(e) {
      SlotOneLoad(s, e);
    } else {
      WaitOneLoad(s, e);
    }
  }

  lemma TotalledStep(s: State, e: Event)
    requires Totalled(s) && Grounded(s) && Enabled(s, e)
    ensures Totalled(Next(s, e))
  {
    var t := Next(s, e);
    OneLoad(s, e);
    match Loaded(s, e)
    case None => assert Loads(t.core) == Loads(s.core);
    case Some(c) =>
      LoadsUpdate(s.core, c, t.core.chans[c]);
      assert Loads(t.core) == Loads(s.core.(chans := s.core.chans[c := t.core.chans[c]]));
  }

  lemma MatchedStep(s: State, e: Event)
    requires Matched(s) && Wf(s.core) && NewTicket(s) && Enabled(s, e)
    ensures Matched(Next(s, e))
  {
    var t := Next(s, e);
    OneChange(s, e);
    if Mover(e).Some? { CountUpdate(s.reqs, Mover(e).value, t.reqs[Mover(e).value], HasSlot()); }
    if Touched(s, e).Some? {
      CountUpdate(s.core.cells, Touched(s, e).value, t.core.cells[Touched(s, e).value], HasMail());
    }
    if e.HandTo? { assert s.core.queue[0] in s.core.queue; }
  }

  // --- Order and life of waiters ---

  lemma PoolKeepsWf(s: State, e: Event)
    requires Wf(s.core) && Enabled(s, e) && OfPool(e)
    ensures Wf(Next(s, e).core)
  {
    if e.HandTo? { ServeKeepsWf(s.core, e.c); }
  }

  lemma EntryKeepsWf(s: State, e: Event)
    requires Wf(s.core) && NewTicket(s) && Enabled(s, e) && OfEntry(e)
    ensures Wf(Next(s, e).core)
  {
    if e.JoinTail? { assert NextTicket(s) !in s.core.cells; }
  }

  lemma WaitKeepsWf(s: State, e: Event)
    requires Wf(s.core) && Enabled(s, e) && OfWait(e)
    ensures Wf(Next(s, e).core)
  {
    if e.Abandon? { WithoutKeepsOthers(s.core.queue, s.reqs[e.r].w); }
  }

  lemma SlotKeepsWf(s: State, e: Event)
    requires Wf(s.core) && Enabled(s, e) && OfSlot(e)
    ensures Wf(Next(s, e).core)
  {
  }

  lemma WfStep(s: State, e: Event)
    requires Wf(s.core) && NewTicket(s) && Enabled(s, e)
    ensures Wf(Next(s, e).core)
  {
    if OfPool(e) {
      PoolKeepsWf(s, e);
    } else if OfEntry(e) {
      EntryKeepsWf(s, e);
    } else if OfSlot(e) {
      SlotKeepsWf(s, e);
    } else {
      WaitKeepsWf(s, e);
    }
  }

  lemma ChannelsStay(s: State, e: Event)
    requires Enabled(s, e)
    ensures s.core.chans.Keys <= Next(s, e).core.chans.Keys
  {
    OneLoad(s, e);
  }

  /** The slots a request holds and the slots in mailboxes are slots of known channels. */
  ghost predicate HeldKnown(s: State) {
    forall r | r in s.reqs && (HasSlot()(s.reqs[r]) || s.reqs[r].Dropping?) :: s.reqs[r].c in s.core.chans
  }

  ghost predicate MailKnown(s: State) {
    forall w | w in s.core.cells && s.core.cells[w].ready.Some? :: s.core.cells[w].ready.value in s.core.chans
  }

  lemma HeldStep(s: State, e: Event)
    requires HeldKnown(s) && MailKnown(s) && Enabled(s, e)
    ensures HeldKnown(Next(s, e))
  {
    ChannelsStay(s, e);
    OneChange(s, e);
  }

  lemma MailStep(s: State, e: Event)
    requires MailKnown(s) && Enabled(s, e)
    ensures MailKnown(Next(s, e))
  {
    ChannelsStay(s, e);
    OneChange(s, e);
  }

  lemma GroundedStep(s: State, e: Event)
    requires Grounded(s) && Enabled(s, e)
    ensures Grounded(Next(s, e))
  {
    HeldStep(s, e);
    MailStep(s, e);
  }

  lemma {:induction false} WithoutIncreasing(q: seq<nat>, w: nat)
    requires Increasing(q)
    ensures Increasing(Without(q, w))
  {
    if w in q {
      var k :| 0 <= k < |q| && q[k] == w;
      WithoutIsRemoval(q, w, k);
    } else {
      WithoutAbsent(q, w);
    }
  }

  lemma TouchedIsKnown(s: State, e: Event)
    requires Wf(s.core) && Enabled(s, e) && Touched(s, e).Some?
    ensures e.JoinTail? || Touched(s, e).value in s.core.cells
  {
    if e.HandTo? { assert s.core.queue[0] in s.core.queue; }
  }

  lemma TicketsStep(s: State, e: Event)
    requires Tickets(s) && Wf(s.core) && Enabled(s, e)
    ensures Tickets(Next(s, e))
  {
    var t := Next(s, e);
    assert ChangesOne(s, e) by { OneChange(s, e); }
    match Touched(s, e)
    case None =>
    case Some(w) =>
      TouchedIsKnown(s, e);
      assert t.core.cells.Keys == s.core.cells.Keys + {w};
      assert |t.core.cells| == |t.core.cells.Keys| && |s.core.cells| == |s.core.cells.Keys|;
  }

  lemma Popped(q: seq<nat>)
    requires Increasing(q) && q != []
    ensures Increasing(q[1..])
    ensures forall v :: v in q <==> v == q[0] || v in q[1..]
    ensures forall v | v in q[1..] :: q[0] < v
  {
    assert q == [q[0]] + q[1..];
  }

  lemma FifoStep(s: State, e: Event)
    requires Fifo(s) && Tickets(s) && Placed(s) && Wf(s.core) && Enabled(s, e)
    ensures Fifo(Next(s, e)) && Placed(Next(s, e))
  {
    match e
    case JoinTail(r) => JoinTailKeepsFifo(s, r);
    case Abandon(r) =>
      AbandonKeepsFifo(s, r);
      AbandonKeepsPlaced(s, r);
    case HandTo(c) => HandToKeepsFifo(s, c);
    case _ => OthersKeepFifo(s, e);
  }

  lemma OthersKeepFifo(s: State, e: Event)
    requires Fifo(s) && Placed(s) && Enabled(s, e) && !e.JoinTail? && !e.Abandon? && !e.HandTo?
    ensures Fifo(Next(s, e)) && Placed(Next(s, e))
  {
    OneChange(s, e);
  }

  /** What abandon does to the queue when the slot has not been handed. */
  lemma AbandonEffect(s: State, r: nat)
    requires Wf(s.core) && Enabled(s, Abandon(r))
    ensures var w, t := s.reqs[r].w, Next(s, Abandon(r));
            if s.core.cells[w].handed then t == s.(reqs := s.reqs[r := Collecting(w)])
            else && t == s.(reqs := s.reqs[r := GaveUp(s.reqs[r].why)], core := s.core.(queue := t.core.queue),
                            gone := s.gone + {w})
                 && (forall v :: v in t.core.queue <==> v in s.core.queue && v != w)
                 && (Increasing(s.core.queue) ==> Increasing(t.core.queue))
  {
    var w := s.reqs[r].w;
    if !s.core.cells[w].handed {
      WithoutKeepsOthers(s.core.queue, w);
      if Increasing(s.core.queue) {
        WithoutIncreasing(s.core.queue, w);
      }
    }
  }

  lemma AbandonKeepsFifo(s: State, r: nat)
    requires Fifo(s) && Wf(s.core) && Enabled(s, Abandon(r))
    ensures Fifo(Next(s, Abandon(r)))
  {
    AbandonEffect(s, r);
  }

  lemma AbandonKeepsPlaced(s: State, r: nat)
    requires Placed(s) && Wf(s.core) && Enabled(s, Abandon(r))
    ensures Placed(Next(s, Abandon(r)))
  {
    AbandonEffect(s, r);
  }

  lemma JoinTailKeepsFifo(s: State, r: nat)
    requires Fifo(s) && Tickets(s) && Placed(s) && Wf(s.core) && Enabled(s, JoinTail(r))
    ensures Fifo(Next(s, JoinTail(r))) && Placed(Next(s, JoinTail(r)))
  {
    AppendIncreasing(s.core.queue, NextTicket(s));
  }

  lemma HandToKeepsFifo(s: State, c: nat)
    requires Fifo(s) && Placed(s) && Wf(s.core) && Enabled(s, HandTo(c))
    ensures Fifo(Next(s, HandTo(c))) && Placed(Next(s, HandTo(c)))
  {
    Popped(s.core.queue);
    assert s.core.queue[0] in s.core.queue;
    AppendIncreasing(s.served, s.core.queue[0]);
  }

  lemma LifeStep(s: State, e: Event)
    requires Life(s) && Wf(s.core) && NewTicket(s) && Enabled(s, e)
    ensures Life(Next(s, e))
  {
    if e.Abandon? {
      AbandonKeepsLife(s, e.r);
    } else if e.HandTo? {
      HandToKeepsLife(s, e.c);
    } else if e.JoinTail? {
      JoinTailKeepsLife(s, e.r);
    } else if e.Receive? || e.Collect? {
      DeliveryKeepsLife(s, e.r);
    } else if OfPool(e) {
      PoolKeepsLife(s, e);
    } else {
      OthersKeepLife(s, e);
    }
  }

  ghost predicate SameLine(s: State, t: State) {
    t.core.queue == s.core.queue && t.core.cells == s.core.cells && t.owner == s.owner
  }

  lemma PoolKeepsLine(s: State, e: Event)
    requires Enabled(s, e) && OfPool(e) && !e.HandTo?
    ensures SameLine(s, Next(s, e))
  {
  }

  lemma OthersKeepLine(s: State, e: Event)
    requires Enabled(s, e) && !OfPool(e) && !e.Abandon? && !e.JoinTail? && !e.Receive? && !e.Collect?
    ensures SameLine(s, Next(s, e))
  {
  }

  lemma PoolKeepsLife(s: State, e: Event)
    requires Life(s) && Enabled(s, e) && OfPool(e) && !e.HandTo?
    ensures Life(Next(s, e))
  {
    PoolKeepsLine(s, e);
    PoolOneChange(s, e);
  }

  /** A phase may change as long as it goes on waiting, or not. */
  lemma PhaseKeepsLife(s: State, t: State, r: nat, p: Phase)
    requires Life(s) && SameLine(s, t) && t.reqs == s.reqs[r := p]
    requires forall w :: WaitsOn(p, w) <==> r in s.reqs && WaitsOn(s.reqs[r], w)
    requires !p.Collecting?
    ensures Life(t)
  {
    if p.Parked? || p.Leaving? { assert WaitsOn(p, p.w); }
    if r in s.reqs && (s.reqs[r].Parked? || s.reqs[r].Leaving? || s.reqs[r].Collecting?) {
      assert WaitsOn(s.reqs[r], s.reqs[r].w);
    }
  }

  lemma OthersKeepWaiting(s: State, e: Event)
    requires Enabled(s, e) && !OfPool(e) && !e.Abandon? && !e.JoinTail? && !e.Receive? && !e.Collect?
    ensures var r, t := e.r, Next(s, e);
            && r in t.reqs && t.reqs == s.reqs[r := t.reqs[r]]
            && (forall w :: WaitsOn(t.reqs[r], w) <==> r in s.reqs && WaitsOn(s.reqs[r], w))
            && !t.reqs[r].Collecting?
  {
  }

  lemma OthersKeepLife(s: State, e: Event)
    requires Life(s) && Enabled(s, e) && !OfPool(e) && !e.Abandon? && !e.JoinTail? && !e.Receive? && !e.Collect?
    ensures Life(Next(s, e))
  {
    OthersKeepLine(s, e);
    OthersKeepWaiting(s, e);
    PhaseKeepsLife(s, Next(s, e), e.r, Next(s, e).reqs[e.r]);
  }

  lemma JoinTailKeepsLife(s: State, r: nat)
    requires Life(s) && Wf(s.core) && NewTicket(s) && Enabled(s, JoinTail(r))
    ensures Life(Next(s, JoinTail(r)))
  {
  }

  lemma AbandonKeepsLife(s: State, r: nat)
    requires Life(s) && Wf(s.core) && Enabled(s, Abandon(r))
    ensures Life(Next(s, Abandon(r)))
  {
    AbandonEffect(s, r);
  }

  lemma HandToKeepsLife(s: State, c: nat)
    requires Life(s) && Wf(s.core) && Enabled(s, HandTo(c))
    ensures Life(Next(s, HandTo(c)))
  {
    assert s.core.queue == [s.core.queue[0]] + s.core.queue[1..];
    assert s.core.queue[0] in s.core.queue;
  }

  lemma DeliveryKeepsLife(s: State, r: nat)
    requires Life(s) && Wf(s.core) && At(s, r)
    requires (s.reqs[r].Parked? || s.reqs[r].Collecting?) && Delivered(s, s.reqs[r].w)
    ensures Life(TakeDelivery(s, r))
  {
    assert s.owner[s.reqs[r].w] == r && s.reqs[r].w !in s.core.queue;
  }

  // --- Counters, limits, wake-ups ---

  lemma DepthStep(s: State, e: Event)
    requires s.depth == Count(s.reqs, InOpenStream()) && Enabled(s, e)
    ensures Next(s, e).depth == Count(Next(s, e).reqs, InOpenStream())
  {
    OneChange(s, e);
    if Mover(e).Some? { CountUpdate(s.reqs, Mover(e).value, Next(s, e).reqs[Mover(e).value], InOpenStream()); }
  }

  lemma OpenedStep(s: State, e: Event)
    requires s.openedCount == Count(s.reqs, WasOpened()) && Enabled(s, e)
    ensures Next(s, e).openedCount == Count(Next(s, e).reqs, WasOpened())
  {
    OneChange(s, e);
    if Mover(e).Some? { CountUpdate(s.reqs, Mover(e).value, Next(s, e).reqs[Mover(e).value], WasOpened()); }
  }

  lemma ResultStep(s: State, e: Event, l: Label)
    requires l in s.results && s.results[l] == Count(s.reqs, Labelled(l)) && Enabled(s, e)
    ensures l in Next(s, e).results && Next(s, e).results[l] == Count(Next(s, e).reqs, Labelled(l))
  {
    OneChange(s, e);
    if Mover(e).Some? { CountUpdate(s.reqs, Mover(e).value, Next(s, e).reqs[Mover(e).value], Labelled(l)); }
  }

  lemma CountersStep(s: State, e: Event)
    requires Counters(s) && Enabled(s, e)
    ensures Counters(Next(s, e))
  {
    DepthStep(s, e);
    OpenedStep(s, e);
    forall l: Label
      ensures l in Next(s, e).results && Next(s, e).results[l] == Count(Next(s, e).reqs, Labelled(l))
    {
      ResultStep(s, e, l);
    }
    OneChange(s, e);
  }

  lemma LimitsStep(s: State, e: Event)
    requires Limits(s) && Enabled(s, e)
    ensures Limits(Next(s, e))
  {
    var t := Next(s, e);
    assert s.cap <= t.cap;
    forall c | c in t.core.chans
      ensures t.core.chans[c].active <= t.cap || t.core.chans[c].active <= 0
    {
      assert c in s.core.chans ==> t.core.chans[c].active <= s.core.chans[c].active || CanBook(s.core, c);
    }
  }

  lemma NoLostWakeupStep(s: State, e: Event)
    requires NoLostWakeup(s) && Enabled(s, e)
    ensures NoLostWakeup(Next(s, e))
  {
    var t := Next(s, e);
    match e
    case Abandon(r) =>
      if s.core.queue == [] { WithoutAbsent(s.core.queue, s.reqs[r].w); }
    case _ =>
  }

  lemma InvStep(s: State, e: Event)
    requires Inv(s) && Enabled(s, e)
    ensures Inv(Next(s, e))
  {
    assert NewTicket(s);
    WfStep(s, e);
    GroundedStep(s, e);
    AccountedStep(s, e);
    TotalledStep(s, e);
    MatchedStep(s, e);
    TicketsStep(s, e);
    FifoStep(s, e);
    LifeStep(s, e);
    CountersStep(s, e);
    LimitsStep(s, e);
    NoLostWakeupStep(s, e);
  }

  lemma NothingCounted<V>(f: V -> bool)
    ensures Count<nat, V>(map[], f) == 0
  {
    var m: map<nat, V> := map[];
    assert (set k | k in m && f(m[k])) == {};
  }

  lemma InitInv(max: int)
    ensures Inv(Init(max))
  {
    NothingCounted(HasSlot());
    NothingCounted(InOpenStream());
    NothingCounted(WasOpened());
    NothingCounted(HasMail());
    forall l: Label
      ensures l in Init(max).results && Init(max).results[l] == Count(Init(max).reqs, Labelled(l))
    {
      NothingCounted(Labelled(l));
      match l
      case OK =>
      case Timeout =>
      case NotAllowed =>
      case DialFailed =>
      case Rejected =>
    }
  }

  /** Every reachable state satisfies the invariant. */
  lemma {:induction false} RunInv(s: State, es: seq<Event>, t: State)
    requires Inv(s) && Run(s, es, t)
    ensures Inv(t)
    decreases |es|
  {
    if es != [] {
      InvStep(s, es[0]);
      RunInv(Next(s, es[0]), es[1..], t);
    }
  }
}
