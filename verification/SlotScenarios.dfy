/** Runs that show what the scheduler does not promise. */
module SlotScenarios {
  import opened Basics
  import opened Outcomes
  import opened SlotCore
  import opened SlotSystem
  import opened SlotInvariant
  import opened SlotTheorems
  import opened SlotRequests

  // --- A request parked with its timer spent ---

  lemma {:induction false} RunAppend(s: State, es: seq<Event>, t: State, e: Event)
    requires Run(s, es, t) && Enabled(t, e)
    ensures Run(s, es + [e], Next(t, e))
    decreases |es|
  {
    if es == [] {
      assert Run(Next(s, e), ([e])[1..], Next(s, e));
    } else {
      RunAppend(Next(s, es[0]), es[1..], t, e);
      assert (es + [e])[1..] == es[1..] + [e];
    }
  }

  /** A state of the scenario below: one request, one result-free session, limit 1. */
  ghost function Scene(core: Core<nat, nat>, p: Phase, depth: int, handing: bool, fired: set<nat>,
                       owner: map<nat, nat>, served: seq<nat>): State {
    Init(1).(core := core, reqs := map[0 := p], depth := depth, handing := handing, fired := fired,
             owner := owner, served := served)
  }

  lemma Extend(from: State, es: seq<Event>, s: State, e: Event, t: State) returns (es': seq<Event>)
    requires Run(from, es, s) && Enabled(s, e) && Next(s, e) == t
    ensures Run(from, es', t)
  {
    RunAppend(from, es, s, e);
    es' := es + [e];
  }

  lemma Parks(s: State, r: nat, t: State)
    requires At(s, r) && s.reqs[r].Arrived? && !s.handing && Full(s.core)
    requires t == Next(s, JoinTail(r))
    ensures Enabled(s, JoinTail(r))
    ensures t == s.(reqs := s.reqs[r := Parked(NextTicket(s))], core := t.core, owner := t.owner)
    ensures t.core == Park(s.core, NextTicket(s)) && t.owner == s.owner[NextTicket(s) := r]
  {
  }

  lemma ParksWithNoChannel() returns (es: seq<Event>)
    ensures Run(Init(1), es, Scene(Core(map[], map[], 1, [0], map[0 := Cell(false, None)], 0),
                                   Parked(0), 1, false, {}, map[0 := 0], []))
  {
    var empty: Core<nat, nat> := Core(map[], map[], 1, [], map[], 0);
    var s1 := Scene(empty, Arrived, 1, false, {}, map[], []);
    es := Extend(Init(1), [], Init(1), Arrive(0), s1);
    Parks(s1, 0, Next(s1, JoinTail(0)));
    var parked := Core(map[], map[], 1, [0], map[0 := Cell(false, None)], 0);
    assert NextTicket(s1) == 0 && Park(empty, 0) == parked;
    assert Next(s1, JoinTail(0)) == Scene(parked, Parked(0), 1, false, {}, map[0 := 0], []);
    es := Extend(Init(1), es, s1, JoinTail(0), Next(s1, JoinTail(0)));
  }

  lemma TimerFiresFirst() returns (es: seq<Event>)
    ensures Run(Init(1), es, Scene(Core(map[], map[], 1, [0], map[0 := Cell(false, None)], 0),
                                   Leaving(0, TimedOut), 1, false, {0}, map[0 := 0], []))
  {
    es := ParksWithNoChannel();
    var parked := Core(map[], map[], 1, [0], map[0 := Cell(false, None)], 0);
    var s2 := Scene(parked, Parked(0), 1, false, {}, map[0 := 0], []);
    es := Extend(Init(1), es, s2, GiveUp(0, TimedOut),
                 Scene(parked, Leaving(0, TimedOut), 1, false, {0}, map[0 := 0], []));
  }

  lemma ChannelArrives() returns (es: seq<Event>)
    ensures Run(Init(1), es,
                Scene(Core(map[7 := 0], map[0 := Chan(7, 0, false)], 1, [0], map[0 := Cell(false, None)], 0),
                                   Leaving(0, TimedOut), 1, true, {0}, map[0 := 0], []))
  {
    es := TimerFiresFirst();
    var parked := Core(map[], map[], 1, [0], map[0 := Cell(false, None)], 0);
    var added := Core(map[7 := 0], map[0 := Chan(7, 0, false)], 1, [0], map[0 := Cell(false, None)], 0);
    assert AddChan(parked, 0, Chan(7, 0, false)) == added;
    es := Extend(Init(1), es, Scene(parked, Leaving(0, TimedOut), 1, false, {0}, map[0 := 0], []), AddChannel(0, 7),
                 Scene(added, Leaving(0, TimedOut), 1, true, {0}, map[0 := 0], []));
  }

  lemma OneServed(added: Core<nat, nat>, handed: Core<nat, nat>)
    requires added == Core(map[7 := 0], map[0 := Chan(7, 0, false)], 1, [0], map[0 := Cell(false, None)], 0)
    requires handed == Core(map[7 := 0], map[0 := Chan(7, 1, false)], 1, [], map[0 := Cell(true, Some(0))], 1)
    ensures CanBook(added, 0) && Serve(added, 0) == handed
  {
  }

  lemma SlotComesAnyway() returns (es: seq<Event>)
    ensures Run(Init(1), es,
                Scene(Core(map[7 := 0], map[0 := Chan(7, 1, false)], 1, [], map[0 := Cell(true, Some(0))], 1),
                                   Leaving(0, TimedOut), 1, false, {0}, map[0 := 0], [0]))
  {
    es := ChannelArrives();
    var added := Core(map[7 := 0], map[0 := Chan(7, 0, false)], 1, [0], map[0 := Cell(false, None)], 0);
    var handed := Core(map[7 := 0], map[0 := Chan(7, 1, false)], 1, [], map[0 := Cell(true, Some(0))], 1);
    var s4 := Scene(added, Leaving(0, TimedOut), 1, true, {0}, map[0 := 0], []);
    var s5 := Scene(handed, Leaving(0, TimedOut), 1, true, {0}, map[0 := 0], [0]);
    OneServed(added, handed);
    es := Extend(Init(1), es, s4, HandTo(0), s5);
    es := Extend(Init(1), es, s5, EndHandoff, s5.(handing := false));
  }

  lemma SlotCollected() returns (es: seq<Event>)
    ensures Run(Init(1), es, Scene(Core(map[7 := 0], map[0 := Chan(7, 1, false)], 1, [], map[0 := Cell(true, None)], 1),
                                   Holding(0), 1, false, {0}, map[0 := 0], [0]))
  {
    es := SlotComesAnyway();
    var handed := Core(map[7 := 0], map[0 := Chan(7, 1, false)], 1, [], map[0 := Cell(true, Some(0))], 1);
    var taken := handed.(cells := map[0 := Cell(true, None)]);
    var s6 := Scene(handed, Leaving(0, TimedOut), 1, false, {0}, map[0 := 0], [0]);
    var s7 := Scene(handed, Collecting(0), 1, false, {0}, map[0 := 0], [0]);
    es := Extend(Init(1), es, s6, Abandon(0), s7);
    assert handed.cells[0 := Cell(true, None)] == taken.cells;
    es := Extend(Init(1), es, s7, Collect(0), Scene(taken, Holding(0), 1, false, {0}, map[0 := 0], [0]));
  }

  lemma OpenFails() returns (es: seq<Event>)
    ensures Run(Init(1), es, Scene(Core(map[7 := 0], map[0 := Chan(7, 0, false)], 1, [], map[0 := Cell(true, None)], 0),
                                   Dropping(0), 1, true, {0}, map[0 := 0], [0]))
  {
    es := SlotCollected();
    var taken := Core(map[7 := 0], map[0 := Chan(7, 1, false)], 1, [], map[0 := Cell(true, None)], 1);
    var freed := Core(map[7 := 0], map[0 := Chan(7, 0, false)], 1, [], map[0 := Cell(true, None)], 0);
    assert Unbook(taken, 0) == freed;
    es := Extend(Init(1), es, Scene(taken, Holding(0), 1, false, {0}, map[0 := 0], [0]), OpenFail(0),
                 Scene(freed, Dropping(0), 1, true, {0}, map[0 := 0], [0]));
  }

  lemma ChannelDropped() returns (es: seq<Event>)
    ensures Run(Init(1), es, Scene(Core(map[], map[0 := Chan(7, 0, true)], 1, [], map[0 := Cell(true, None)], 0),
                                   Arrived, 1, false, {0}, map[0 := 0], [0]))
  {
    es := OpenFails();
    var freed := Core(map[7 := 0], map[0 := Chan(7, 0, false)], 1, [], map[0 := Cell(true, None)], 0);
    var dropped := Core(map[], map[0 := Chan(7, 0, true)], 1, [], map[0 := Cell(true, None)], 0);
    var s9 := Scene(freed, Dropping(0), 1, true, {0}, map[0 := 0], [0]);
    var s10 := Scene(freed, Dropping(0), 1, false, {0}, map[0 := 0], [0]);
    es := Extend(Init(1), es, s9, EndHandoff, s10);
    assert RemoveChan(freed, 0) == dropped;
    es := Extend(Init(1), es, s10, Drop(0), Scene(dropped, Arrived, 1, false, {0}, map[0 := 0], [0]));
  }

  /** queue_timeout does not bound the wait: a request can be parked with its timer spent.
      Here its timer fires, a slot is handed to it before it can abandon, the open on that
      channel fails, and it parks again at the tail. */
  lemma ParkedWithSpentTimer() returns (es: seq<Event>, t: State)
    ensures Run(Init(1), es, t) && !t.handing && t.pending == 0
    ensures At(t, 0) && t.reqs[0] == Parked(1) && t.core.queue == [1] && 0 in t.fired
    ensures !Enabled(t, GiveUp(0, TimedOut))
  {
    es := ChannelDropped();
    var s := Scene(Core(map[], map[0 := Chan(7, 0, true)], 1, [], map[0 := Cell(true, None)], 0),
                   Arrived, 1, false, {0}, map[0 := 0], [0]);
    t := Next(s, JoinTail(0));
    Parks(s, 0, t);
    assert NextTicket(s) == 1 && s.core.queue + [1] == [1];
    es := Extend(Init(1), es, s, JoinTail(0), t);
  }

  // --- A request that is overtaken ---

  /** Two requests and limit 1: both park, each gets a slot on a channel of its own, request 1
      opens its stream, request 0's open fails and it parks again. */
  ghost predicate Shows(t: State, p: Phase, q: Phase, core: Core<nat, nat>, handing: bool, served: seq<nat>) {
    && t.reqs.Keys == {0, 1} && t.reqs[0] == p && t.reqs[1] == q
    && t.core == core && t.handing == handing && t.served == served
    && t.owner == map[0 := 0, 1 := 1] && t.pending == 0
  }

  lemma Go(from: State, es: seq<Event>, s: State, e: Event) returns (es': seq<Event>, t: State)
    requires Run(from, es, s) && Enabled(s, e)
    ensures t == Next(s, e) && Run(from, es', t)
  {
    RunAppend(from, es, s, e);
    es', t := es + [e], Next(s, e);
  }

  ghost function Waiting(): Cell<nat> { Cell(false, None) }

  ghost function Mail(c: nat): Cell<nat> { Cell(true, Some(c)) }

  ghost function Fetched(): Cell<nat> { Cell(true, None) }

  /** The pool before any channel, with the first channel, and with both. */
  ghost function NoPool(queue: seq<nat>): Core<nat, nat> {
    Core(map[], map[], 1, queue, map[0 := Waiting(), 1 := Waiting()], 0)
  }

  ghost function OnePool(a: int, queue: seq<nat>, k: Cell<nat>): Core<nat, nat> {
    Core(map[7 := 0], map[0 := Chan(7, a, false)], 1, queue, map[0 := k, 1 := Waiting()], a)
  }

  ghost function TwoPool(a: int, b: int, queue: seq<nat>, k: Cell<nat>, l: Cell<nat>): Core<nat, nat> {
    Core(map[7 := 0, 8 := 1], map[0 := Chan(7, a, false), 1 := Chan(8, b, false)], 1, queue, map[0 := k, 1 := l], a + b)
  }

  lemma BothPark() returns (es: seq<Event>, t: State)
    ensures Run(Init(1), es, t) && Shows(t, Parked(0), Parked(1), NoPool([0, 1]), false, [])
  {
    var fs := ParksWithNoChannel();
    var parked := Core(map[], map[], 1, [0], map[0 := Cell(false, None)], 0);
    var s := Scene(parked, Parked(0), 1, false, {}, map[0 := 0], []);
    var gs, u := Go(Init(1), fs, s, Arrive(1));
    assert u.core == parked && u.reqs.Keys == {0, 1};
    Parks(u, 1, Next(u, JoinTail(1)));
    SecondParks();
    es, t := Go(Init(1), gs, u, JoinTail(1));
    assert t.owner == map[0 := 0][1 := 1];
  }

  lemma SecondParks()
    ensures Park(Core(map[], map[], 1, [0], map[0 := Cell(false, None)], 0), 1) == NoPool([0, 1])
  {
    assert [0] + [1] == [0, 1];
  }

  // The pools of the scene.

  lemma FirstPool()
    ensures AddChan(NoPool([0, 1]), 0, Chan(7, 0, false)) == OnePool(0, [0, 1], Waiting())
    ensures CanBook(OnePool(0, [0, 1], Waiting()), 0)
    ensures Serve(OnePool(0, [0, 1], Waiting()), 0) == OnePool(1, [1], Mail(0)) && Full(OnePool(1, [1], Mail(0)))
  {
  }

  lemma SecondPool()
    ensures AddChan(OnePool(1, [1], Mail(0)), 1, Chan(8, 0, false)) == TwoPool(1, 0, [1], Mail(0), Waiting())
    ensures CanBook(TwoPool(1, 0, [1], Mail(0), Waiting()), 1)
    ensures Serve(TwoPool(1, 0, [1], Mail(0), Waiting()), 1) == TwoPool(1, 1, [], Mail(0), Mail(1))
  {
  }

  lemma Fetching()
    ensures TwoPool(1, 1, [], Mail(0), Mail(1)).cells[1 := Fetched()] == TwoPool(1, 1, [], Mail(0), Fetched()).cells
    ensures TwoPool(1, 1, [], Mail(0), Fetched()).cells[0 := Fetched()] == TwoPool(1, 1, [], Fetched(), Fetched()).cells
  {
  }

  ghost function OneLeft(): Core<nat, nat> {
    Core(map[8 := 1], map[0 := Chan(7, 0, true), 1 := Chan(8, 1, false)], 1, [], map[0 := Fetched(), 1 := Fetched()], 1)
  }

  lemma FirstPoolGoes()
    ensures Unbook(TwoPool(1, 1, [], Fetched(), Fetched()), 0) == TwoPool(0, 1, [], Fetched(), Fetched())
    ensures RemoveChan(TwoPool(0, 1, [], Fetched(), Fetched()), 0) == OneLeft() && Full(OneLeft())
  {
  }

  lemma FirstArrives() returns (es: seq<Event>, t: State)
    ensures Run(Init(1), es, t) && Shows(t, Parked(0), Parked(1), OnePool(0, [0, 1], Waiting()), true, [])
  {
    var fs, s := BothPark();
    FirstPool();
    es, t := Go(Init(1), fs, s, AddChannel(0, 7));
  }

  lemma FirstServed() returns (es: seq<Event>, t: State)
    ensures Run(Init(1), es, t) && Shows(t, Parked(0), Parked(1), OnePool(1, [1], Mail(0)), false, [0])
  {
    var fs, s := FirstArrives();
    FirstPool();
    var gs, u := Go(Init(1), fs, s, HandTo(0));
    es, t := Go(Init(1), gs, u, EndHandoff);
  }

  lemma SecondArrives() returns (es: seq<Event>, t: State)
    ensures Run(Init(1), es, t) && Shows(t, Parked(0), Parked(1), TwoPool(1, 0, [1], Mail(0), Waiting()), true, [0])
  {
    var fs, s := FirstServed();
    SecondPool();
    es, t := Go(Init(1), fs, s, AddChannel(1, 8));
  }

  lemma SecondServed() returns (es: seq<Event>, t: State)
    ensures Run(Init(1), es, t) && Shows(t, Parked(0), Parked(1), TwoPool(1, 1, [], Mail(0), Mail(1)), false, [0, 1])
  {
    var fs, s := SecondArrives();
    SecondPool();
    var gs, u := Go(Init(1), fs, s, HandTo(1));
    es, t := Go(Init(1), gs, u, EndHandoff);
  }

  lemma SecondOpens() returns (es: seq<Event>, t: State)
    ensures Run(Init(1), es, t)
    ensures Shows(t, Parked(0), Streaming(1), TwoPool(1, 1, [], Mail(0), Fetched()), false, [0, 1])
  {
    var fs, s := SecondServed();
    Fetching();
    var gs, u := Go(Init(1), fs, s, Receive(1));
    es, t := Go(Init(1), gs, u, OpenOk(1));
  }

  lemma FirstHolds() returns (es: seq<Event>, t: State)
    ensures Run(Init(1), es, t)
    ensures Shows(t, Holding(0), Streaming(1), TwoPool(1, 1, [], Fetched(), Fetched()), false, [0, 1])
  {
    var fs, s := SecondOpens();
    Fetching();
    es, t := Go(Init(1), fs, s, Receive(0));
  }

  lemma FirstOpenFails() returns (es: seq<Event>, t: State)
    ensures Run(Init(1), es, t)
    ensures Shows(t, Dropping(0), Streaming(1), TwoPool(0, 1, [], Fetched(), Fetched()), false, [0, 1])
  {
    var fs, s := FirstHolds();
    FirstPoolGoes();
    var gs, u := Go(Init(1), fs, s, OpenFail(0));
    es, t := Go(Init(1), gs, u, EndHandoff);
  }

  lemma FirstArrivesAgain() returns (es: seq<Event>, t: State)
    ensures Run(Init(1), es, t) && Shows(t, Arrived, Streaming(1), OneLeft(), false, [0, 1])
  {
    var fs, s := FirstOpenFails();
    FirstPoolGoes();
    es, t := Go(Init(1), fs, s, Drop(0));
  }

  lemma ThirdTicket(core: Core<nat, nat>, owner: map<nat, nat>)
    requires core == OneLeft() && owner == map[0 := 0, 1 := 1]
    ensures |core.cells| == 2 && Park(core, 2).queue == [2]
    ensures owner[2 := 0] == map[0 := 0, 1 := 1, 2 := 0]
  {
    assert [] + [2] == [2];
  }

  /** First come, first served does not hold per request: request 0 parked first, request 1 has
      its stream, and request 0 waits with a new ticket behind everybody. */
  lemma OvertakenAfterFailedOpen() returns (es: seq<Event>, t: State)
    ensures Run(Init(1), es, t) && !t.handing && t.pending == 0
    ensures t.owner == map[0 := 0, 1 := 1, 2 := 0] && t.served == [0, 1] && t.core.queue == [2]
    ensures t.reqs.Keys == {0, 1} && t.reqs[0] == Parked(2) && t.reqs[1] == Streaming(1)
  {
    var fs, s := FirstArrivesAgain();
    FirstPoolGoes();
    Parks(s, 0, Next(s, JoinTail(0)));
    ThirdTicket(s.core, s.owner);
    es, t := Go(Init(1), fs, s, JoinTail(0));
  }

  // --- A channel above the limit ---

  ghost function Loaded(a: int, max: int, reqs: map<nat, Phase>, handing: bool, pending: nat): State {
    Init(2).(core := Core(map[7 := 0], map[0 := Chan(7, a, false)], max, [], map[], a), reqs := reqs,
             depth := |reqs|, handing := handing, pending := pending)
  }

  lemma LoadedTakes(a: int, max: int, reqs: map<nat, Phase>)
    requires a < max
    ensures CanBook(Loaded(a, max, reqs, false, 0).core, 0)
    ensures Book(Loaded(a, max, reqs, false, 0).core, 0) == Loaded(a + 1, max, reqs, false, 0).core
  {
  }

  lemma ChannelIsThere() returns (es: seq<Event>)
    ensures Run(Init(2), es, Loaded(0, 2, map[], false, 0))
  {
    var empty: Core<nat, nat> := Core(map[], map[], 2, [], map[], 0);
    var s := Loaded(0, 2, map[], true, 0);
    assert AddChan(empty, 0, Chan(7, 0, false)) == s.core;
    es := Extend(Init(2), [], Init(2), AddChannel(0, 7), s);
    es := Extend(Init(2), es, s, EndHandoff, s.(handing := false));
  }

  lemma ChannelTakesOne() returns (es: seq<Event>)
    ensures Run(Init(2), es, Loaded(1, 2, map[0 := Holding(0)], false, 0))
  {
    es := ChannelIsThere();
    var s := Loaded(0, 2, map[0 := Arrived], false, 0);
    es := Extend(Init(2), es, Loaded(0, 2, map[], false, 0), Arrive(0), s);
    LoadedTakes(0, 2, map[0 := Arrived]);
    es := Extend(Init(2), es, s, Reserve(0, 0), Loaded(1, 2, map[0 := Holding(0)], false, 0));
  }

  lemma ChannelTakesTwo() returns (es: seq<Event>)
    ensures Run(Init(2), es, Loaded(2, 2, map[0 := Holding(0), 1 := Holding(0)], false, 0))
  {
    es := ChannelTakesOne();
    var s := Loaded(1, 2, map[0 := Holding(0), 1 := Arrived], false, 0);
    es := Extend(Init(2), es, Loaded(1, 2, map[0 := Holding(0)], false, 0), Arrive(1), s);
    LoadedTakes(1, 2, map[0 := Holding(0), 1 := Arrived]);
    es := Extend(Init(2), es, s, Reserve(1, 0), Loaded(2, 2, map[0 := Holding(0), 1 := Holding(0)], false, 0));
  }

  /** A lowered limit leaves a channel above it. */
  lemma AboveTheLimit() returns (es: seq<Event>, t: State)
    ensures Run(Init(2), es, t) && t.core.max == 1 && 0 in t.core.chans && t.core.chans[0].active == 2
    ensures !WithinLimit(t)
  {
    es := ChannelTakesTwo();
    var s := Loaded(2, 2, map[0 := Holding(0), 1 := Holding(0)], false, 0);
    t := Next(s, StoreMax(1));
    es := Extend(Init(2), es, s, StoreMax(1), t);
  }
}
