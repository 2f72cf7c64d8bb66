/** A node session's chMu critical sections, on objects. Each method is tied to the step
    of SlotCore it performs; View() is the value those steps talk about. */
module NodeSession {
  import opened Basics
  import opened SlotCore

  class DataChannel {
    const ID: int
    var active: int
    var closed: bool  // closed here, or its smux session is closed

    constructor (id: int)
      ensures ID == id && active == 0 && !closed
    {
      ID := id;
      active := 0;
      closed := false;
    }

    method Close()
      modifies this`closed
      ensures closed
    {
      closed := true;
    }
  }

  class SlotWaiter {
    var ready: Option<DataChannel>  // the one-place buffer
    var handed: bool

    constructor ()
      ensures ready == None && !handed
    {
      ready := None;
      handed := false;
    }
  }

  class NodeSession {
    var channels: map<int, DataChannel>
    var waiters: seq<SlotWaiter>
    var maxStreams: int
    var activeStreams: int
    var done: bool
    ghost var known: set<DataChannel>  // every channel ever added
    ghost var parked: set<SlotWaiter>  // every waiter ever parked

    ghost function View(): Core<DataChannel, SlotWaiter>
      reads this, known, parked
    {
      Core(channels,
           map c | c in known :: Chan(c.ID, c.active, c.closed),
           maxStreams,
           waiters,
           map w | w in parked :: Cell(w.handed, w.ready),
           activeStreams)
    }

    ghost predicate Valid()
      reads this, known, parked
    {
      Wf(View())
    }

    constructor (max: int)
      ensures Valid() && known == {} && parked == {}
      ensures View() == Core(map[], map[], max, [], map[], 0) && !done
    {
      channels := map[];
      waiters := [];
      maxStreams := max;
      activeStreams := 0;
      done := false;
      known := {};
      parked := {};
    }

    lemma PoolIsKnown()
      requires Valid()
      ensures channels.Values <= known
      ensures forall c | c in channels.Values :: c.ID in channels && channels[c.ID] == c
    {
      forall c | c in channels.Values
        ensures c in known && c.ID in channels && channels[c.ID] == c
      {
        var i := KeyOf(channels, c);
        assert View().pool[i] in View().chans && View().chans[c].id == i;
      }
    }

    /** What the scan found, in terms of the pool. */
    lemma InServiceOrFull(best: DataChannel?)
      requires Valid()
      requires best == null ==> Full(View())
      requires best != null ==> CanBook(View(), best)
      ensures best == null ==> forall c | c in channels.Values :: c.closed || c.active >= maxStreams
      ensures best != null ==> !best.closed && best.ID in channels && channels[best.ID] == best
      ensures best != null ==> best.active < maxStreams
      ensures best != null ==> forall c | c in channels.Values && !c.closed :: best.active <= c.active
    {
      PoolIsKnown();
      forall c | c in channels.Values && !c.closed && c.active < maxStreams
        ensures HasRoom(View(), c)
      {
      }
    }

    /** Books a slot on a least-loaded usable channel, scanning the pool in any order. */
    method ReserveLocked() returns (best: DataChannel?)
      requires Valid()
      modifies this`activeStreams, known`active
      ensures Valid()
      ensures best == null ==> Full(old(View())) && View() == old(View())
      ensures best != null ==> CanBook(old(View()), best) && View() == Book(old(View()), best)
      ensures best == null ==> forall c | c in channels.Values :: c.closed || c.active >= maxStreams
      ensures best != null ==> !best.closed && best.ID in channels && channels[best.ID] == best
      ensures best != null ==> best.active == old(best.active) + 1 <= maxStreams
      ensures best != null ==> activeStreams == old(activeStreams) + 1
      ensures best != null ==> forall c | c in channels.Values && !c.closed :: old(best.active) <= old(c.active)
      ensures forall c | c in known && c != best :: c.active == old(c.active)
    {
      ghost var v := View();
      var max := maxStreams;
      best := null;
      var bestActive := 0;
      PoolIsKnown();
      var todo := channels.Values;
      while |todo| > 0
        invariant todo <= channels.Values
        invariant best != null ==> HasRoom(v, best) && bestActive == best.active
        invariant forall c | c in known && c !in todo && HasRoom(v, c) :: best != null && bestActive <= c.active
        decreases |todo|
      {
        var ch :| ch in todo;
        todo := todo - {ch};
        if ch.closed {
          continue;
        }
        var a := ch.active;
        if a >= max {
          continue;
        }
        if best == null || a < bestActive {
          best, bestActive := ch, a;
        }
      }
      InServiceOrFull(best);
      if best != null {
        Take(best);
      }
    }

    method Take(ch: DataChannel)
      requires Valid() && ch in known
      modifies this`activeStreams, ch`active
      ensures Valid()
      ensures View() == Book(old(View()), ch)
    {
      ch.active := ch.active + 1;
      activeStreams := activeStreams + 1;
      assert View().chans == Book(old(View()), ch).chans;
    }

    /** The head of the queue leaves it and finds ch, just booked, in its mailbox. */
    method PopAndSend(ch: DataChannel, ghost before: Core<DataChannel, SlotWaiter>)
      requires Wf(before) && before.queue != [] && ch in before.chans && View() == Book(before, ch)
      modifies this`waiters, parked
      ensures Valid()
      ensures View() == Serve(before, ch)
    {
      var w := waiters[0];
      assert w in before.queue;
      waiters := waiters[1..];
      w.handed := true;
      w.ready := Some(ch);
      assert View().cells == Serve(before, ch).cells;
      ServeKeepsWf(before, ch);
    }

    /** Passes free slots to the head of the queue while both exist. */
    method HandoffLocked() returns (ghost picks: seq<DataChannel>)
      requires Valid()
      modifies this`activeStreams, this`waiters, known`active, parked
      ensures Valid()
      ensures Handoff(old(View()), picks, View())
      ensures |picks| <= |old(waiters)| && waiters == old(waiters)[|picks|..]
      ensures activeStreams == old(activeStreams) + |picks|
      ensures forall c | c in picks :: !c.closed && c in channels.Values
      ensures forall i | 0 <= i < |picks| :: old(waiters)[i].handed && old(waiters)[i].ready == Some(picks[i])
      ensures waiters == [] || forall c | c in channels.Values :: c.closed || c.active >= maxStreams
    {
      picks := [];
      while |waiters| > 0
        invariant Valid() && Serves(old(View()), picks, View())
        decreases |waiters|
      {
        ghost var before := View();
        var best := ReserveLocked();
        if best == null {
          break;
        }
        var ch: DataChannel := best;
        PopAndSend(ch, before);
        ServesOneMore(old(View()), picks, before, ch);
        picks := picks + [ch];
      }
      HandedOut(old(View()), picks);
    }

    /** What a hand-off did, in terms of the queue, the mailboxes and the pool. */
    lemma HandedOut(before: Core<DataChannel, SlotWaiter>, picks: seq<DataChannel>)
      requires Valid() && Wf(before) && Handoff(before, picks, View())
      ensures |picks| <= |before.queue| && waiters == before.queue[|picks|..] && activeStreams == before.total + |picks|
      ensures forall c | c in picks :: c in known && !c.closed && c in channels.Values
      ensures forall i | 0 <= i < |picks| ::
                before.queue[i] in parked && before.queue[i].handed && before.queue[i].ready == Some(picks[i])
      ensures waiters == [] || forall c | c in channels.Values :: c.closed || c.active >= maxStreams
    {
      ServesInOrder(before, picks, View());
      HandoffDelivers(before, picks, View());
      forall i | 0 <= i < |picks|
        ensures before.queue[i] in parked && before.queue[i].handed && before.queue[i].ready == Some(picks[i])
      {
        assert View().cells[before.queue[i]] == Cell(true, Some(picks[i]));
      }
      if waiters != [] {
        InServiceOrFull(null);
      }
    }

    /** A reserved channel, or the waiter the caller is parked as. While anybody is parked
        the caller goes to the tail without looking at the pool. */
    method Acquire() returns (ch: DataChannel?, waiter: SlotWaiter?)
      requires Valid()
      modifies this`activeStreams, this`waiters, this`parked, known`active
      ensures Valid()
      ensures (ch == null) != (waiter == null)
      ensures ch != null <==> old(View()).queue == [] && !Full(old(View()))
      ensures ch != null ==> CanBook(old(View()), ch) && View() == Book(old(View()), ch) && parked == old(parked)
      ensures waiter != null ==> fresh(waiter) && parked == old(parked) + {waiter}
      ensures waiter != null ==> View() == Park(old(View()), waiter)
      ensures ch != null ==> old(waiters) == waiters == [] && !ch.closed && ch in channels.Values
      ensures ch != null ==> ch.active == old(ch.active) + 1 <= maxStreams && activeStreams == old(activeStreams) + 1
      ensures waiter != null ==> waiters == old(waiters) + [waiter] && !waiter.handed && waiter.ready == None
      ensures waiter != null ==> activeStreams == old(activeStreams)
      ensures waiter != null ==> forall c | c in known :: c.active == old(c.active)
      ensures waiter != null && old(waiters) == [] ==>
                forall c | c in channels.Values :: c.closed || c.active >= maxStreams
    {
      waiter := null;
      ch := null;
      if |waiters| == 0 {
        ch := ReserveLocked();
        if ch != null {
          return;
        }
      }
      waiter := ParkLocked();
    }

    /** A new waiter joins the tail of the queue. */
    method ParkLocked() returns (waiter: SlotWaiter)
      requires Valid()
      modifies this`waiters, this`parked
      ensures Valid() && fresh(waiter) && parked == old(parked) + {waiter} && View() == Park(old(View()), waiter)
      ensures waiters == old(waiters) + [waiter] && !waiter.handed && waiter.ready == None
    {
      ghost var before := View();
      waiter := new SlotWaiter();
      waiters := waiters + [waiter];
      parked := parked + {waiter};
      assert View().cells == Park(before, waiter).cells;
      assert waiter !in before.queue;
    }

    /** Takes w out of the queue, or collects the slot that was handed to it first. */
    method Abandon(w: SlotWaiter) returns (ch: DataChannel?)
      requires Valid() && w in parked
      requires w.handed ==> w.ready.Some?
      modifies this`waiters, w`ready
      ensures Valid()
      ensures old(w.handed) ==>
                Some(ch) == old(w.ready) && View() == old(View()).(cells := old(View()).cells[w := Cell(true, None)])
      ensures !old(w.handed) ==>
                ch == null && View() == old(View()).(queue := Without(old(View()).queue, w))
    {
      ghost var before := View();
      if w.handed {
        ch := w.ready.value;
        w.ready := None;
        assert View().cells == before.cells[w := Cell(true, None)];
        return;
      }
      ch := null;
      for i := 0 to |waiters|
        invariant View() == before
        invariant w !in waiters[..i]
      {
        if waiters[i] == w {
          WithoutIsRemoval(waiters, w, i);
          WithoutKeepsOthers(waiters, w);
          waiters := waiters[..i] + waiters[i + 1..];
          assert View() == before.(queue := Without(before.queue, w));
          return;
        }
      }
      WithoutAbsent(waiters, w);
    }

    /** Gives a slot back and hands the freed capacity on. */
    method Release(ch: DataChannel?) returns (ghost picks: seq<DataChannel>)
      requires Valid() && (ch != null ==> ch in known)
      modifies this`activeStreams, this`waiters, known`active, parked
      ensures Valid()
      ensures ch == null ==> View() == old(View())
      ensures ch != null ==> Handoff(Unbook(old(View()), ch), picks, View())
      ensures |picks| <= |old(waiters)| && waiters == old(waiters)[|picks|..]
      ensures forall i | 0 <= i < |picks| :: old(waiters)[i].handed && old(waiters)[i].ready == Some(picks[i])
      ensures ch != null ==> activeStreams == old(activeStreams) - 1 + |picks|
      ensures ch != null && picks == [] ==> ch.active == old(ch.active) - 1
      ensures ch != null && waiters != [] ==> forall c | c in channels.Values :: c.closed || c.active >= maxStreams
    {
      picks := [];
      if ch == null {
        return;
      }
      ch.active := ch.active - 1;
      activeStreams := activeStreams - 1;
      assert View().chans == Unbook(old(View()), ch).chans;
      assert View() == Unbook(old(View()), ch);
      picks := HandoffLocked();
    }

    /** Stores the new limit, then hands out whatever room it made. */
    method SetConfig(max: int) returns (ghost picks: seq<DataChannel>)
      requires Valid()
      modifies this`maxStreams, this`activeStreams, this`waiters, known`active, parked
      ensures Valid()
      ensures Handoff(old(View()).(max := max), picks, View())
      ensures maxStreams == max && |picks| <= |old(waiters)| && waiters == old(waiters)[|picks|..]
      ensures activeStreams == old(activeStreams) + |picks|
      ensures forall i | 0 <= i < |picks| :: old(waiters)[i].handed && old(waiters)[i].ready == Some(picks[i])
      ensures waiters != [] ==> forall c | c in channels.Values :: c.closed || c.active >= maxStreams
    {
      maxStreams := max;
      assert View() == old(View()).(max := max);
      picks := HandoffLocked();
    }

    /** Puts a channel into service under its id and hands out its slots. */
    method AddChannel(ch: DataChannel) returns (ghost picks: seq<DataChannel>)
      requires Valid()
      modifies this`channels, this`known, this`activeStreams, this`waiters, known`active, ch`active, parked
      ensures Valid()
      ensures known == old(known) + {ch}
      ensures Handoff(AddChan(old(View()), ch, Chan(ch.ID, old(ch.active), ch.closed)), picks, View())
      ensures channels == old(channels)[ch.ID := ch] && |picks| <= |old(waiters)| && waiters == old(waiters)[|picks|..]
      ensures activeStreams == old(activeStreams) + |picks|
      ensures forall i | 0 <= i < |picks| :: old(waiters)[i].handed && old(waiters)[i].ready == Some(picks[i])
      ensures waiters != [] ==> forall c | c in channels.Values :: c.closed || c.active >= maxStreams
    {
      channels := channels[ch.ID := ch];
      known := known + {ch};
      ghost var added := AddChan(old(View()), ch, Chan(ch.ID, old(ch.active), ch.closed));
      assert View().chans == added.chans;
      assert View() == added;
      picks := HandoffLocked();
    }

    method RemoveChannel(ch: DataChannel)
      requires Valid() && ch in known
      modifies this`channels, ch`closed
      ensures Valid()
      ensures View() == RemoveChan(old(View()), ch)
      ensures ch.closed && ch !in channels.Values
      ensures channels == old(channels) - if ch in old(channels).Values then {ch.ID} else {}
    {
      PoolIsKnown();
      if ch.ID in channels && channels[ch.ID] == ch {
        channels := channels - {ch.ID};
      }
      assert ch in old(channels).Values <==> ch.ID in old(channels) && old(channels)[ch.ID] == ch;
      ch.Close();
      assert View().chans == RemoveChan(old(View()), ch).chans;
      PoolIsKnown();
    }

    /** Empties the pool and closes what was in it; only the first call does anything. */
    method Close()
      requires Valid()
      modifies this`done, this`channels, known`closed
      ensures Valid() && done
      ensures View() == if old(done) then old(View()) else Shut(old(View()))
      ensures channels == if old(done) then old(channels) else map[]
      ensures forall c | c in known ::
                c.closed == (old(c.closed) || (!old(done) && c in old(channels).Values))
    {
      if done {
        return;
      }
      done := true;
      var chans := channels.Values;
      PoolIsKnown();
      DropPool();
      CloseAll(chans);
    }

    method DropPool()
      requires Valid()
      modifies this`channels
      ensures Valid() && channels == map[] && View() == old(View()).(pool := map[])
    {
      channels := map[];
    }

    method CloseAll(chans: set<DataChannel>)
      requires Valid() && channels == map[] && chans <= known
      modifies chans`closed
      ensures View() == old(View()).(chans := Killed(old(View()).chans, chans))
      ensures forall c | c in known :: c.closed == (old(c.closed) || c in chans)
    {
      var todo := chans;
      while |todo| > 0
        invariant todo <= chans
        invariant forall c | c in known :: c.closed == (old(c.closed) || c in chans - todo)
        decreases |todo|
      {
        var c :| c in todo;
        c.Close();
        todo := todo - {c};
      }
      assert View().chans == Killed(old(View()).chans, chans);
    }
  }
}
