/** What the slot scheduler guarantees in every state that any interleaving can reach. */
module SlotTheorems {
  import opened Basics
  import opened Counting
  import opened SlotCore
  import opened SlotSystem
  import opened SlotInvariant

  lemma Reached(max: int, es: seq<Event>, t: State)
    requires Run(Init(max), es, t)
    ensures Inv(t)
  {
    InitInv(max);
    RunInv(Init(max), es, t);
  }

  // --- Slots ---

  /** No interleaving leaks or doubles a slot: each channel's count is the number of slots
      out on it, and activeStreams is both the sum of those counts, removed channels
      included, and the number of holders. */
  lemma SlotConservation(max: int, es: seq<Event>, t: State)
    requires Run(Init(max), es, t)
    ensures forall c | c in t.core.chans :: t.core.chans[c].active == Holders(t, c)
    ensures t.core.total == Sum(Loads(t.core))
    ensures t.core.total == Count(t.reqs, HasSlot()) + Count(t.core.cells, HasMail())
  {
    Reached(max, es, t);
  }

  /** The largest limit that was in force at some point of a run. */
  ghost function LargestLimit(max: int, es: seq<Event>): int
    decreases |es|
  {
    if es == [] then max
    else if es[0].StoreMax? && es[0].max > max then LargestLimit(es[0].max, es[1..])
    else LargestLimit(max, es[1..])
  }

  lemma {:induction false} CapIsLargest(s: State, es: seq<Event>, t: State)
    requires Run(s, es, t)
    ensures t.cap == LargestLimit(s.cap, es)
    decreases |es|
  {
    if es != [] {
      CapIsLargest(Next(s, es[0]), es[1..], t);
    }
  }

  /** A channel's count is never negative and never above the largest limit so far. */
  lemma LoadWithinLargestLimit(max: nat, es: seq<Event>, t: State, c: nat)
    requires Run(Init(max), es, t) && c in t.core.chans
    ensures 0 <= t.core.chans[c].active <= LargestLimit(max, es)
  {
    Reached(max, es, t);
    CapIsLargest(Init(max), es, t);
    LargestLimitGrows(max, es);
  }

  lemma {:induction false} LargestLimitGrows(max: int, es: seq<Event>)
    ensures LargestLimit(max, es) >= max
    decreases |es|
  {
    if es != [] {
      LargestLimitGrows(if es[0].StoreMax? && es[0].max > max then es[0].max else max, es[1..]);
    }
  }

  ghost predicate Idle(t: State) {
    forall r | r in t.reqs :: t.reqs[r].Refused? || t.reqs[r].Finished?
  }

  lemma NoneCounted<K, V>(m: map<K, V>, f: V -> bool)
    requires forall k | k in m :: !f(m[k])
    ensures Count(m, f) == 0
  {
    assert (set k | k in m && f(m[k])) == {};
  }

  lemma SomeElement<T>(q: seq<T>)
    ensures q == [] || exists x :: x in q
  {
    if q != [] {
      assert q[0] in q;
    }
  }

  lemma IdleQueue(t: State)
    requires Idle(t) && Life(t) && Wf(t.core)
    ensures t.core.queue == []
    ensures forall w | w in t.core.cells :: t.core.cells[w].ready == None
  {
    SomeElement(t.core.queue);
    forall w | w in t.core.cells
      ensures t.core.cells[w].ready == None
    {
    }
  }

  /** Once nobody is outstanding every counter is back to zero and nobody is queued. */
  lemma Quiescent(max: int, es: seq<Event>, t: State)
    requires Run(Init(max), es, t) && Idle(t)
    ensures t.core.total == 0 && t.depth == 0 && t.core.queue == []
    ensures forall c | c in t.core.chans :: t.core.chans[c].active == 0
  {
    assert Life(t) && Wf(t.core) && Matched(t) && Accounted(t) && t.depth == Count(t.reqs, InOpenStream()) by {
      Reached(max, es, t);
    }
    IdleQueue(t);
    NoneCounted(t.reqs, HasSlot());
    NoneCounted(t.reqs, InOpenStream());
    NoneCounted(t.core.cells, HasMail());
    forall c | c in t.core.chans
      ensures t.core.chans[c].active == 0
    {
      NoneCounted(t.reqs, InHand(c));
      NoneCounted(t.core.cells, Buffered(c));
    }
  }

  // --- Wake-ups ---

  /** Whenever chMu is free and no SetConfig is between its store and its lock, a request is
      parked only if every usable channel in the pool is at the limit. */
  lemma NobodyWaitsForAFreeSlot(max: int, es: seq<Event>, t: State, w: nat, c: nat)
    requires Run(Init(max), es, t) && !t.handing && t.pending == 0
    requires w in t.core.queue && c in t.core.pool.Values
    ensures c in t.core.chans && (t.core.chans[c].dead || t.core.chans[c].active >= t.core.max)
  {
    assert Wf(t.core) && NoLostWakeup(t) by { Reached(max, es, t); }
    PickedFromThePool(t.core, c);
  }

  // --- Which channels get slots ---

  /** A slot only ever goes to a channel in the pool that is alive, below the limit and the
      least loaded of those alive. */
  lemma SlotsGoToLiveChannels(max: int, es: seq<Event>, t: State, r: nat, c: nat)
    requires Run(Init(max), es, t) && (Enabled(t, Reserve(r, c)) || Enabled(t, HandTo(c)))
    ensures c in t.core.pool.Values && c in t.core.chans && !t.core.chans[c].dead && t.core.chans[c].active < t.core.max
    ensures forall d | d in t.core.pool.Values && d in t.core.chans && !t.core.chans[d].dead ::
              t.core.chans[c].active <= t.core.chans[d].active
  {
    assert Wf(t.core) by { Reached(max, es, t); }
    PickedFromThePool(t.core, c);
  }

  /** A request parks, and a hand-off ends before the queue does, only when others wait or every
      channel in the pool is dead or at the limit. */
  lemma ParksOnlyWhenFull(max: int, es: seq<Event>, t: State, r: nat, c: nat)
    requires Run(Init(max), es, t) && c in t.core.pool.Values
    requires (Enabled(t, JoinTail(r)) && t.core.queue == []) || (Enabled(t, EndHandoff) && t.core.queue != [])
    ensures c in t.core.chans && (t.core.chans[c].dead || t.core.chans[c].active >= t.core.max)
  {
    assert Wf(t.core) by { Reached(max, es, t); }
    PickedFromThePool(t.core, c);
  }

  lemma Dies(s: State, e: Event, c: nat)
    requires Enabled(s, e) && (e == Die(c) || e == RemoveChannel(c) || (e.Drop? && s.reqs[e.r].c == c))
    ensures c in Next(s, e).core.chans && Next(s, e).core.chans[c].dead
  {
  }

  lemma DeadNotPicked(s: State, e: Event, c: nat)
    requires Enabled(s, e) && c in s.core.chans && s.core.chans[c].dead
    ensures e != HandTo(c) && !(e.Reserve? && e.c == c)
  {
  }

  lemma PoolStaysDead(s: State, e: Event, c: nat)
    requires Enabled(s, e) && c in s.core.chans && s.core.chans[c].dead && OfPool(e)
    ensures c in Next(s, e).core.chans && Next(s, e).core.chans[c].dead
  {
  }

  lemma SlotStaysDead(s: State, e: Event, c: nat)
    requires Enabled(s, e) && c in s.core.chans && s.core.chans[c].dead && (OfSlot(e) || OfEntry(e))
    ensures c in Next(s, e).core.chans && Next(s, e).core.chans[c].dead
  {
  }

  lemma WaitStaysDead(s: State, e: Event, c: nat)
    requires Enabled(s, e) && c in s.core.chans && s.core.chans[c].dead && OfWait(e)
    ensures c in Next(s, e).core.chans && Next(s, e).core.chans[c].dead
  {
  }

  lemma StaysDead(s: State, e: Event, c: nat)
    requires Enabled(s, e) && c in s.core.chans && s.core.chans[c].dead
    ensures c in Next(s, e).core.chans && Next(s, e).core.chans[c].dead
  {
    if OfPool(e) {
      PoolStaysDead(s, e, c);
    } else if OfWait(e) {
      WaitStaysDead(s, e, c);
    } else {
      SlotStaysDead(s, e, c);
    }
  }

  lemma {:induction false} DeadGetsNothing(s: State, es: seq<Event>, t: State, c: nat)
    requires Run(s, es, t) && c in s.core.chans && s.core.chans[c].dead
    ensures HandTo(c) !in es && forall r :: Reserve(r, c) !in es
    decreases |es|
  {
    if es != [] {
      DeadNotPicked(s, es[0], c);
      StaysDead(s, es[0], c);
      DeadGetsNothing(Next(s, es[0]), es[1..], t, c);
      assert es == [es[0]] + es[1..];
    }
  }

  /** After a channel died or was removed, in whatever way, it never gets another slot. */
  lemma NoSlotAfterDeath(max: int, es: seq<Event>, s: State, e: Event, fs: seq<Event>, t: State, c: nat)
    requires Run(Init(max), es, s) && Enabled(s, e) && Run(Next(s, e), fs, t)
    requires e == Die(c) || e == RemoveChannel(c) || (e.Drop? && s.reqs[e.r].c == c)
    ensures HandTo(c) !in fs && forall r :: Reserve(r, c) !in fs
  {
    Dies(s, e, c);
    DeadGetsNothing(Next(s, e), fs, t, c);
  }

  // --- What a request that gave up is told ---

  /** Why a request may give up: its timer fires for the first time, the session is closed, or
      its caller cancelled it. And what Return then makes of it. */
  lemma GivesUpForAReason(s: State, r: nat, why: Why)
    requires At(s, r)
    ensures Enabled(s, GiveUp(r, why)) <==>
              s.reqs[r].Parked? && (why != TimedOut || r !in s.fired) && (why != SessionClosed || s.done)
    ensures Enabled(s, Return(r)) && s.reqs[r].why == TimedOut ==>
              Next(s, Return(r)).reqs[r] == Refused(if |s.core.pool| == 0 then NoChannel else Saturated)
    ensures Enabled(s, Return(r)) && s.reqs[r].why == SessionClosed ==> Next(s, Return(r)).reqs[r] == Refused(Closed)
    ensures Enabled(s, Return(r)) && s.reqs[r].why == Cancelled ==> Next(s, Return(r)).reqs[r] == Refused(ContextDone)
  {
  }

  /** A request that gave up for a reason, and an error that stands for one. */
  ghost predicate Grounds(s: State, r: nat) {
    r in s.reqs ==>
      match s.reqs[r]
      case Leaving(_, why) => (why == TimedOut ==> r in s.fired) && (why == SessionClosed ==> s.done)
      case GaveUp(why) => (why == TimedOut ==> r in s.fired) && (why == SessionClosed ==> s.done)
      case Refused(err) => ((err == Saturated || err == NoChannel) ==> r in s.fired) && (err == Closed ==> s.done)
      case _ => true
  }

  lemma GroundsStep(s: State, e: Event, r: nat)
    requires Grounds(s, r) && Enabled(s, e)
    ensures Grounds(Next(s, e), r)
  {
    OneChange(s, e);
  }

  lemma {:induction false} GroundsRun(s: State, es: seq<Event>, t: State, r: nat)
    requires Grounds(s, r) && Run(s, es, t)
    ensures Grounds(t, r)
    decreases |es|
  {
    if es != [] {
      GroundsStep(s, es[0], r);
      GroundsRun(Next(s, es[0]), es[1..], t, r);
    }
  }

  /** A request is told that the node is saturated or has no channel only after its own timer
      fired, and that the session is closed only when it is. */
  lemma ErrorsHaveGrounds(max: int, es: seq<Event>, t: State, r: nat)
    requires Run(Init(max), es, t) && At(t, r)
    ensures t.reqs[r] == Refused(Saturated) || t.reqs[r] == Refused(NoChannel) ==> r in t.fired
    ensures t.reqs[r] == Refused(Closed) ==> t.done
  {
    GroundsRun(Init(max), es, t, r);
  }

  /** Among channels with room there is a least-loaded one. */
  lemma {:induction false} LeastLoadedExists<C, W>(s: Core<C, W>, among: set<C>) returns (c: C)
    requires among != {} && among <= s.chans.Keys
    ensures c in among && forall d | d in among :: s.chans[c].active <= s.chans[d].active
    decreases |among|
  {
    var x :| x in among;
    if among == {x} {
      c := x;
    } else {
      assert among == {x} + (among - {x});
      var y := LeastLoadedExists(s, among - {x});
      c := if s.chans[x].active <= s.chans[y].active then x else y;
    }
  }

  lemma BookableUnlessFull<C, W>(s: Core<C, W>) returns (c: C)
    requires !Full(s)
    ensures CanBook(s, c)
  {
    var room := set d | d in s.chans && HasRoom(s, d);
    var x :| x in s.chans && HasRoom(s, x);
    assert x in room;
    c := LeastLoadedExists(s, room);
  }

  /** Nobody gets stuck: a hand-off can always go on or end, and an arrived request that
      finds the lock free can always reserve or park. */
  lemma NeverStuck(t: State, r: nat) returns (c: nat)
    ensures t.handing ==> Enabled(t, EndHandoff) || Enabled(t, HandTo(c))
    ensures !t.handing && At(t, r) && t.reqs[r].Arrived? ==> Enabled(t, Reserve(r, c)) || Enabled(t, JoinTail(r))
  {
    c := 0;
    if !Full(t.core) {
      c := BookableUnlessFull(t.core);
    }
  }

  /** A request that abandons, or that was told its slot is on the way, never blocks. */
  lemma CollectNeverBlocks(max: int, es: seq<Event>, t: State, r: nat)
    requires Run(Init(max), es, t) && At(t, r)
    ensures t.reqs[r].Collecting? ==> Enabled(t, Collect(r))
    ensures t.reqs[r].Leaving? && !t.handing ==> Enabled(t, Abandon(r))
  {
    assert Life(t) by { Reached(max, es, t); }
  }

  // --- The life of a waiter ---

  /** The send in a hand-off finds an empty buffer; a full buffer means handed and not yet
      collected, by the one request that waits on it; a queued waiter is neither. */
  lemma WaiterLife(max: int, es: seq<Event>, t: State, w: nat)
    requires Run(Init(max), es, t) && w in t.core.cells
    ensures Distinct(t.core.queue)
    ensures w in t.core.queue <==> !t.core.cells[w].handed && w !in t.gone
    ensures w in t.core.queue ==> t.core.cells[w].ready == None
    ensures t.core.cells[w].handed <==> w in t.served
    ensures w in t.owner
    ensures t.core.cells[w].ready.Some? <==>
              t.core.cells[w].handed && t.owner[w] in t.reqs && WaitsOn(t.reqs[t.owner[w]], w)
  {
    Reached(max, es, t);
  }

  /** abandon returning nil really took the waiter out and kept everybody else's order;
      otherwise the slot was already handed over and the next step collects it. */
  lemma AbandonTakesOut(max: int, es: seq<Event>, t: State, r: nat)
    requires Run(Init(max), es, t) && Enabled(t, Abandon(r))
    ensures var w, u := t.reqs[r].w, Next(t, Abandon(r));
            if u.reqs[r].GaveUp? then
              exists k :: 0 <= k < |t.core.queue| && t.core.queue[k] == w
                       && u.core.queue == t.core.queue[..k] + t.core.queue[k + 1..]
            else u.core == t.core && Enabled(u, Collect(r))
  {
    Reached(max, es, t);
    var w := t.reqs[r].w;
    if !t.core.cells[w].handed {
      var k :| 0 <= k < |t.core.queue| && t.core.queue[k] == w;
      WithoutIsRemoval(t.core.queue, w, k);
    }
  }

  // --- First come, first served ---

  /** Tickets are queued and served in the order they were given out. */
  lemma InOrder(max: int, es: seq<Event>, t: State)
    requires Run(Init(max), es, t)
    ensures Increasing(t.core.queue) && Increasing(t.served)
    ensures forall a, b | a in t.served && b in t.core.queue :: a < b
  {
    assert Fifo(t) by { Reached(max, es, t); }
  }

  /** Nobody is overtaken: when a waiter is served, every waiter that parked before it has
      been served before it or has given up. */
  lemma NoOvertaking(max: int, es: seq<Event>, t: State, j: nat, a: nat)
    requires Run(Init(max), es, t) && j < |t.served| && a < t.served[j]
    ensures a in t.served[..j] || a in t.gone
  {
    Reached(max, es, t);
    assert t.served[j] in t.served;
    assert a in t.core.cells;
    if a in t.served {
      var i :| 0 <= i < |t.served| && t.served[i] == a;
      assert t.served[..j][i] == a;
    }
  }

  /** A request that gets a slot without parking overtakes nobody: everybody who ever parked
      has been served or has given up. */
  lemma NoBarging(max: int, es: seq<Event>, t: State, r: nat, c: nat, w: nat)
    requires Run(Init(max), es, t) && Enabled(t, Reserve(r, c)) && w < NextTicket(t)
    ensures w in t.served || w in t.gone
  {
    Reached(max, es, t);
    assert w in t.core.cells;
  }

  /** How many waiters a run serves. */
  ghost function Turns(es: seq<Event>): nat {
    if es == [] then 0 else (if es[0].HandTo? then 1 else 0) + Turns(es[1..])
  }

  ghost function Position(q: seq<nat>, w: nat): nat
    requires w in q
  {
    if q[0] == w then 0 else 1 + Position(q[1..], w)
  }

  lemma {:induction false} PositionInLonger(q: seq<nat>, w: nat, x: nat)
    requires w in q
    ensures w in q + [x] && Position(q + [x], w) == Position(q, w)
  {
    if q[0] != w {
      assert (q + [x])[1..] == q[1..] + [x];
      PositionInLonger(q[1..], w, x);
    }
  }

  lemma {:induction false} PositionAfterLeave(q: seq<nat>, w: nat, x: nat)
    requires w in q && w != x
    ensures w in Without(q, x) && Position(Without(q, x), w) <= Position(q, w)
  {
    if q[0] == x {
      assert w in q[1..];
    } else if q[0] != w {
      PositionAfterLeave(q[1..], w, x);
      assert Without(q, x)[1..] == Without(q[1..], x);
    }
  }

  /** A queued waiter never moves back, and moves up one place whenever the head is served. */
  lemma PositionStep(s: State, e: Event, w: nat)
    requires Wf(s.core) && Enabled(s, e) && w in s.core.queue && w in Next(s, e).core.queue
    ensures Position(Next(s, e).core.queue, w) + (if e.HandTo? then 1 else 0) <= Position(s.core.queue, w)
  {
    match e
    case JoinTail(r) => PositionInLonger(s.core.queue, w, NextTicket(s));
    case Abandon(r) =>
      WithoutKeepsOthers(s.core.queue, s.reqs[r].w);
      if w != s.reqs[r].w {
        PositionAfterLeave(s.core.queue, w, s.reqs[r].w);
      }
    case HandTo(c) => assert s.core.queue == [s.core.queue[0]] + s.core.queue[1..];
    case _ =>
  }

  /** Nobody who left the queue comes back into it. */
  lemma LeaveForGood(s: State, e: Event, w: nat)
    requires Tickets(s) && Wf(s.core) && Enabled(s, e) && w in s.core.cells && w !in s.core.queue
    ensures w in Next(s, e).core.cells && w !in Next(s, e).core.queue
  {
    OneChange(s, e);
    if e.Abandon? { WithoutKeepsOthers(s.core.queue, s.reqs[e.r].w); }
    if e.HandTo? { assert s.core.queue == [s.core.queue[0]] + s.core.queue[1..]; }
  }

  lemma {:induction false} StaysOut(s: State, es: seq<Event>, t: State, w: nat)
    requires Inv(s) && Run(s, es, t) && w in s.core.cells && w !in s.core.queue
    ensures w in t.core.cells && w !in t.core.queue
    decreases |es|
  {
    if es != [] {
      InvStep(s, es[0]);
      LeaveForGood(s, es[0], w);
      StaysOut(Next(s, es[0]), es[1..], t, w);
    }
  }

  /** The waiter at position k is out of the queue after at most k + 1 turns. */
  lemma {:induction false} OutAfterTurns(s: State, es: seq<Event>, t: State, w: nat)
    requires Inv(s) && Run(s, es, t) && w in s.core.queue
    requires Turns(es) > Position(s.core.queue, w)
    ensures w in t.core.cells && w !in t.core.queue
    decreases |es|
  {
    InvStep(s, es[0]);
    var u := Next(s, es[0]);
    OneChange(s, es[0]);
    if w in u.core.queue {
      PositionStep(s, es[0], w);
      OutAfterTurns(u, es[1..], t, w);
    } else {
      StaysOut(u, es[1..], t, w);
    }
  }

  // --- Progress ---

  /** e gives back a slot on a usable channel that was not above the limit, with somebody
      in the queue. */
  ghost predicate Frees(s: State, e: Event) {
    && (e.OpenFail? || e.CloseStream?)
    && Enabled(s, e)
    && s.core.queue != []
    && var c := s.reqs[e.r].c;
       Usable(s.core, c) && s.core.chans[c].active <= s.core.max
  }

  /** How many freeing releases of a run saw their hand-off through undisturbed, that is,
      with no channel dying and no limit stored before its first round. */
  ghost function Releases(s: State, es: seq<Event>, armed: bool): nat
    decreases |es|
  {
    if es == [] || !Enabled(s, es[0]) then 0
    else
      var e, u := es[0], Next(s, es[0]);
      if e.HandTo? || e.EndHandoff? then (if armed then 1 else 0) + Releases(u, es[1..], false)
      else if e.Die? || e.StoreMax? then Releases(u, es[1..], false)
      else Releases(u, es[1..], armed || Frees(s, e))
  }

  ghost predicate Armed(s: State) { s.handing && s.core.queue != [] && !Full(s.core) }

  lemma FreesArms(s: State, e: Event)
    requires Frees(s, e)
    ensures Armed(Next(s, e))
  {
    assert HasRoom(Next(s, e).core, s.reqs[e.r].c);
  }

  lemma StaysArmed(s: State, e: Event)
    requires Armed(s) && Enabled(s, e) && !e.HandTo? && !e.EndHandoff? && !e.Die? && !e.StoreMax?
    ensures Armed(Next(s, e))
  {
    var c :| c in s.core.chans && HasRoom(s.core, c);
    assert HasRoom(Next(s, e).core, c);
  }

  /** Every such release serves somebody. */
  lemma {:induction false} ReleasesServe(s: State, es: seq<Event>, t: State, armed: bool)
    requires Run(s, es, t) && (armed ==> Armed(s))
    ensures Releases(s, es, armed) <= Turns(es)
    decreases |es|
  {
    if es != [] {
      var e, u := es[0], Next(s, es[0]);
      if e.HandTo? || e.EndHandoff? || e.Die? || e.StoreMax? {
        ReleasesServe(u, es[1..], t, false);
      } else {
        if armed { StaysArmed(s, e); }
        if Frees(s, e) { FreesArms(s, e); }
        ReleasesServe(u, es[1..], t, armed || Frees(s, e));
      }
    }
  }

  /** The wait is bounded: a waiter at position k has been served or has given up once k + 1
      slots were freed on usable channels within the limit. */
  lemma WaitIsBounded(max: int, before: seq<Event>, s: State, es: seq<Event>, t: State, w: nat)
    requires Run(Init(max), before, s) && Run(s, es, t) && w in s.core.queue
    requires Releases(s, es, false) > Position(s.core.queue, w)
    ensures w in t.served || w in t.gone
  {
    Reached(max, before, s);
    ReleasesServe(s, es, t, false);
    OutAfterTurns(s, es, t, w);
    RunInv(s, es, t);
  }

  // --- A sequential hand-off is a run ---

  ghost function HandEvents(picks: seq<nat>): seq<Event> {
    if picks == [] then [EndHandoff] else [HandTo(picks[0])] + HandEvents(picks[1..])
  }

  ghost function AfterHandoff(s: State, core: Core<nat, nat>, n: nat): State
    requires n <= |s.core.queue|
  {
    s.(core := core, handing := false, served := s.served + s.core.queue[..n])
  }

  lemma EndIsRun(s: State)
    requires Enabled(s, EndHandoff)
    ensures Run(s, [EndHandoff], AfterHandoff(s, s.core, 0))
  {
    assert s.served + s.core.queue[..0] == s.served;
    assert Run(Next(s, EndHandoff), [EndHandoff][1..], AfterHandoff(s, s.core, 0));
  }

  lemma AfterMore(s: State, c: nat, core: Core<nat, nat>, n: nat)
    requires Enabled(s, HandTo(c)) && n < |s.core.queue|
    ensures AfterHandoff(Next(s, HandTo(c)), core, n) == AfterHandoff(s, core, n + 1)
  {
    var q := s.core.queue;
    assert (s.served + [q[0]]) + q[1..][..n] == s.served + q[..n + 1];
  }

  /** A whole hand-off from a held lock is a run of its rounds. */
  lemma {:induction false} HandoffIsRun(s: State, picks: seq<nat>, core: Core<nat, nat>)
    requires s.handing && Handoff(s.core, picks, core)
    ensures |picks| <= |s.core.queue|
    ensures Run(s, HandEvents(picks), AfterHandoff(s, core, |picks|))
    decreases |picks|
  {
    if picks == [] {
      EndIsRun(s);
    } else {
      var u := Next(s, HandTo(picks[0]));
      HandoffIsRun(u, picks[1..], core);
      AfterMore(s, picks[0], core, |picks| - 1);
      assert HandEvents(picks)[1..] == HandEvents(picks[1..]);
    }
  }

  // --- Demand and outcomes ---

  ghost function Outstanding(): Phase -> bool { (p: Phase) => !p.Refused? && !p.Finished? }

  ghost function Granted(): Phase -> bool { (p: Phase) => p.Streaming? || p.Settled? }

  ghost function IsHolding(): Phase -> bool { (p: Phase) => p.Holding? }

  /** Between a reservation and the decrement of queueDepth a request counts twice, and only
      then: active plus queued is the number of distinct outstanding requests plus those. */
  lemma DemandCountsTwice(max: int, es: seq<Event>, t: State)
    requires Run(Init(max), es, t)
    ensures t.core.total + t.depth == Count(t.reqs, Outstanding())
              + (Count(t.reqs, IsHolding()) + Count(t.core.cells, HasMail()))
    ensures t.depth == Count(t.reqs, InOpenStream())
  {
    assert Matched(t) && t.depth == Count(t.reqs, InOpenStream()) by { Reached(max, es, t); }
    CountSplit(t.reqs, Outstanding(), InOpenStream(), Granted());
    CountSplit(t.reqs, HasSlot(), IsHolding(), Granted());
  }
}
