/** Which node each port is served for: after a reload step by step, and after a rebuild from
    scratch. The two agree. */
module Rebuild {
  import opened Basics
  import opened Config
  import opened Diff

  /** Which node each port is served for when everything is started from scratch. */
  ghost function Rebuilt(c: Config, online: set<string>): map<nat, string> {
    map p | p in c.ports && c.ports[p].node in online :: c.ports[p].node
  }

  /** What is served for nodes that are not going away. */
  ghost function Serving(at: map<nat, string>, away: set<string>): map<nat, string> {
    map p | p in at && at[p] !in away :: at[p]
  }

  // --- The reload, on port owners alone ---

  ghost function ToSet<T>(q: seq<T>): set<T> { set x | x in q }

  /** The nodes a reload sends away. */
  ghost function SentAway(d: Diff, live: set<string>): set<string> {
    (ToSet(d.removedNodes) + ToSet(d.keyChangedNodes)) * live
  }

  /** Which node each port is served for after the listener steps of a reload. */
  ghost function Reloaded(at: map<nat, string>, cur: Config, d: Diff, live: set<string>): map<nat, string> {
    Kept(at, d, live) + Startable(cur, live, ToSet(d.addedPorts))
  }

  ghost function Kept(at: map<nat, string>, d: Diff, live: set<string>): map<nat, string> {
    map p | p in at && at[p] !in SentAway(d, live) && p !in d.removedPorts :: at[p]
  }

  /** The ports among some that the configuration gives to one of those nodes, and to which. */
  ghost function Startable(c: Config, names: set<string>, ports: set<nat>): map<nat, string> {
    map p | p in ports && p in c.ports && c.ports[p].node in names :: c.ports[p].node
  }

  lemma StartableMore(c: Config, names: set<string>, ports: set<nat>, more: set<nat>)
    ensures Startable(c, names, ports + more) == Startable(c, names, ports) + Startable(c, names, more)
    ensures forall p | p in Startable(c, names, ports) && p in Startable(c, names, more) ::
              Startable(c, names, ports)[p] == Startable(c, names, more)[p]
  {
  }

  /** Of the ports that are not served, those that keep their owner still are not afterwards. */
  ghost function StillLost(prev: Config, cur: Config, lost: set<nat>): set<nat> {
    set p | p in lost && p in prev.ports && !Moved(prev, cur, p)
  }

  /** The incremental reload ends where a full rebuild from the new configuration would, short
      of the ports that were missing before and keep their owner. */
  lemma ReloadIsRebuild(prev: Config, cur: Config, d: Diff, live: set<string>, away: set<string>,
                        at: map<nat, string>, lost: set<nat>)
    requires IsDiff(prev, cur, d) && away <= live && (forall p | p in prev.ports :: prev.ports[p].node in prev.nodes)
    requires forall p | p in cur.ports :: cur.ports[p].node in cur.nodes
    requires Serving(at, away) == Rebuilt(prev, live - away) - lost
    ensures var away' := away + SentAway(d, live);
            Serving(Reloaded(at, cur, d, live), away') == Rebuilt(cur, live - away') - StillLost(prev, cur, lost)
  {
    var away' := away + SentAway(d, live);
    var served := Serving(Reloaded(at, cur, d, live), away');
    var wanted := Rebuilt(cur, live - away') - StillLost(prev, cur, lost);
    forall p | p in served
      ensures p in wanted && wanted[p] == served[p]
    {
      ServedIsConfigured(prev, cur, d, live, away, at, lost, p);
    }
    forall p | p in wanted
      ensures p in served
    {
      ConfiguredIsServed(prev, cur, d, live, away, at, lost, p);
    }
  }

  lemma ServedIsConfigured(prev: Config, cur: Config, d: Diff, live: set<string>, away: set<string>,
                           at: map<nat, string>, lost: set<nat>, p: nat)
    requires IsDiff(prev, cur, d) && away <= live
    requires Serving(at, away) == Rebuilt(prev, live - away) - lost
    requires p in Serving(Reloaded(at, cur, d, live), away + SentAway(d, live))
    ensures p in cur.ports && cur.ports[p].node == Reloaded(at, cur, d, live)[p] && cur.ports[p].node in live
    ensures p !in StillLost(prev, cur, lost)
  {
    if p in Startable(cur, live, ToSet(d.addedPorts)) {
      assert Moved(cur, prev, p);
    } else {
      assert p in Serving(at, away);
      assert p in Rebuilt(prev, live - away) && Rebuilt(prev, live - away)[p] == Serving(at, away)[p];
      assert !Moved(prev, cur, p);
    }
  }

  lemma ConfiguredIsServed(prev: Config, cur: Config, d: Diff, live: set<string>, away: set<string>,
                           at: map<nat, string>, lost: set<nat>, p: nat)
    requires IsDiff(prev, cur, d) && away <= live
    requires Serving(at, away) == Rebuilt(prev, live - away) - lost
    requires p in Rebuilt(cur, live - (away + SentAway(d, live))) && p !in StillLost(prev, cur, lost)
    ensures p in Serving(Reloaded(at, cur, d, live), away + SentAway(d, live))
  {
    if p !in d.addedPorts {
      assert !Moved(cur, prev, p);
      assert !Moved(prev, cur, p);
      assert p in Rebuilt(prev, live - away) - lost;
      assert p in Serving(at, away);
    }
  }

  /** A port that is not served and keeps its owner is not started by a reload. */
  lemma ReloadDoesNotRestore(prev: Config, cur: Config, d: Diff, live: set<string>, at: map<nat, string>, p: nat)
    requires IsDiff(prev, cur, d) && p !in at
    requires p in prev.ports && p in cur.ports && prev.ports[p].node == cur.ports[p].node
    ensures p !in Reloaded(at, cur, d, live)
  {
    assert !Moved(cur, prev, p);
  }

  // --- Nodes coming and going between reloads ---

  /** Nodes that start to leave take their ports out of what is served. */
  lemma LeavingKeeps(c: Config, online: set<string>, away: set<string>, at: map<nat, string>,
                     lost: set<nat>, gone: set<string>)
    requires Serving(at, away) == Rebuilt(c, online) - lost
    ensures Serving(at, away + gone) == Rebuilt(c, online - gone) - lost
  {
    var served, wanted := Serving(at, away + gone), Rebuilt(c, online - gone) - lost;
    forall p | p in served
      ensures p in wanted && wanted[p] == at[p]
    {
      assert p in Serving(at, away);
      assert p in Rebuilt(c, online) - lost;
    }
    forall p | p in wanted
      ensures p in served
    {
      assert p in Rebuilt(c, online) - lost;
      assert p in Serving(at, away);
    }
  }

  /** Where the ports are served once a node's listeners are gone. */
  ghost function Freed(at: map<nat, string>, n: string): map<nat, string> {
    map p | p in at && at[p] != n :: at[p]
  }

  ghost function OwnedPorts(c: Config, n: string): set<nat> {
    set p | p in c.ports && c.ports[p].node == n
  }

  /** A node that has left, with its listeners. */
  lemma LeftKeeps(c: Config, online: set<string>, away: set<string>, at: map<nat, string>, lost: set<nat>, n: string)
    requires Serving(at, away) == Rebuilt(c, online) - lost
    ensures Serving(Freed(at, n), away - {n}) == Rebuilt(c, online - {n}) - lost
  {
    LeavingKeeps(c, online, away, at, lost, {n});
    assert Serving(Freed(at, n), away - {n}) == Serving(at, away + {n});
  }

  /** Where the ports are served once a node's own ports are started as well. */
  ghost function Joined(c: Config, at: map<nat, string>, n: string): map<nat, string> {
    map p | p in at.Keys + c.ports.Keys && (p in at || c.ports[p].node == n) ::
      if p in c.ports && c.ports[p].node == n then n else at[p]
  }

  /** A node that was offline comes online. */
  lemma JoinedKeeps(c: Config, online: set<string>, away: set<string>, at: map<nat, string>, lost: set<nat>, n: string)
    requires Serving(at, away) == Rebuilt(c, online) - lost && n !in online && n !in away
    requires lost !! OwnedPorts(c, n)
    ensures Serving(Joined(c, at, n), away) == Rebuilt(c, online + {n}) - lost
  {
    var served, wanted := Serving(Joined(c, at, n), away), Rebuilt(c, online + {n}) - lost;
    forall p | p in served
      ensures p in wanted && wanted[p] == served[p]
    {
      if p in c.ports && c.ports[p].node == n {
        assert p in OwnedPorts(c, n);
      } else {
        assert p in Serving(at, away);
        assert p in Rebuilt(c, online) - lost;
      }
    }
    forall p | p in wanted
      ensures p in served
    {
      if c.ports[p].node != n {
        assert p in Rebuilt(c, online) - lost;
        assert p in Serving(at, away);
      }
    }
  }

  /** Taking an online node's listeners away loses exactly its ports. */
  lemma DroppingLoses(c: Config, online: set<string>, away: set<string>, at: map<nat, string>, lost: set<nat>,
                      n: string)
    requires Serving(at, away) == Rebuilt(c, online) - lost
    ensures Serving(Freed(at, n), away) == Rebuilt(c, online) - (lost + OwnedPorts(c, n))
  {
    var served, wanted := Serving(Freed(at, n), away), Rebuilt(c, online) - (lost + OwnedPorts(c, n));
    forall p | p in served
      ensures p in wanted && wanted[p] == at[p]
    {
      assert p in Serving(at, away);
      assert p in Rebuilt(c, online) - lost;
    }
    forall p | p in wanted
      ensures p in served
    {
      assert p in Rebuilt(c, online) - lost;
      assert p in Serving(at, away);
    }
  }

  lemma SomePort<T>(s: set<T>) returns (p: T)
    requires s != {}
    ensures p in s
  {
    p :| p in s;
  }

  /** Some ports are missing from what is served exactly when there are any. */
  lemma MissingIsNotAll(wanted: map<nat, string>, lost: set<nat>)
    requires lost <= wanted.Keys
    ensures wanted - lost == wanted <==> lost == {}
  {
    if lost != {} {
      var p := SomePort(lost);
      assert p in wanted && p !in wanted - lost;
    }
  }

  /** So it breaks the agreement exactly when the node is online and owns a port. */
  lemma DroppingBreaks(c: Config, online: set<string>, away: set<string>, at: map<nat, string>, n: string)
    requires Serving(at, away) == Rebuilt(c, online)
    ensures Serving(Freed(at, n), away) == Rebuilt(c, online) <==> n !in online || OwnedPorts(c, n) == {}
  {
    var wanted := Rebuilt(c, online);
    assert wanted - {} == wanted;
    DroppingLoses(c, online, away, at, {}, n);
    assert wanted - ({} + OwnedPorts(c, n)) == wanted - (OwnedPorts(c, n) * wanted.Keys);
    MissingIsNotAll(wanted, OwnedPorts(c, n) * wanted.Keys);
    if n in online {
      assert OwnedPorts(c, n) <= wanted.Keys;
    } else {
      assert OwnedPorts(c, n) * wanted.Keys == {};
    }
  }

  // --- The same when nothing is missing ---

  lemma NothingMissing(wanted: map<nat, string>)
    ensures wanted - {} == wanted
  {
  }

  lemma ReloadAgrees(prev: Config, cur: Config, d: Diff, live: set<string>, away: set<string>, at: map<nat, string>)
    requires WellFormed(prev) && WellFormed(cur) && IsDiff(prev, cur, d) && away <= live
    requires Serving(at, away) == Rebuilt(prev, live - away)
    ensures var away' := away + SentAway(d, live);
            Serving(Reloaded(at, cur, d, live), away') == Rebuilt(cur, live - away')
  {
    NothingMissing(Rebuilt(prev, live - away));
    ReloadIsRebuild(prev, cur, d, live, away, at, {});
    assert StillLost(prev, cur, {}) == {};
    NothingMissing(Rebuilt(cur, live - (away + SentAway(d, live))));
  }

  lemma LeavingAgrees(c: Config, online: set<string>, away: set<string>, at: map<nat, string>, gone: set<string>)
    requires Serving(at, away) == Rebuilt(c, online)
    ensures Serving(at, away + gone) == Rebuilt(c, online - gone)
  {
    NothingMissing(Rebuilt(c, online));
    LeavingKeeps(c, online, away, at, {}, gone);
    NothingMissing(Rebuilt(c, online - gone));
  }

  lemma LeftAgrees(c: Config, online: set<string>, away: set<string>, at: map<nat, string>, n: string)
    requires Serving(at, away) == Rebuilt(c, online)
    ensures Serving(Freed(at, n), away - {n}) == Rebuilt(c, online - {n})
  {
    NothingMissing(Rebuilt(c, online));
    LeftKeeps(c, online, away, at, {}, n);
    NothingMissing(Rebuilt(c, online - {n}));
  }

  lemma JoinedAgrees(c: Config, online: set<string>, away: set<string>, at: map<nat, string>, n: string)
    requires Serving(at, away) == Rebuilt(c, online) && n !in online && n !in away
    ensures Serving(Joined(c, at, n), away) == Rebuilt(c, online + {n})
  {
    NothingMissing(Rebuilt(c, online));
    JoinedKeeps(c, online, away, at, {}, n);
    NothingMissing(Rebuilt(c, online + {n}));
  }

  // --- Whole runs of the server ---

  /** The configuration, the nodes online and going away, which node each port is served for,
      and the drains whose last step is still to come, by node name. */
  datatype State = State(cfg: Config, online: set<string>, away: set<string>, at: map<nat, string>,
                         drains: multiset<string>)

  datatype Event =
    | Reload(cur: Config, d: Diff)
    | Join(n: string)    // registered, its ports started
    | Fade(n: string)    // its session starts to go away
    | Leave(n: string)   // its listeners stopped, unregistered
    | Drop(n: string)    // the end of a drain: listeners stopped by name

  ghost function Start(c: Config): State { State(c, {}, {}, map[], multiset{}) }

  ghost predicate Enabled(s: State, e: Event) {
    match e
    case Reload(cur, d) => WellFormed(cur) && IsDiff(s.cfg, cur, d)
    case Join(n) => n in s.cfg.nodes && n !in s.online && n !in s.away
    case Fade(n) => n in s.online
    case Leave(n) => n in s.online || n in s.away
    case Drop(n) => n in s.drains
  }

  ghost function Next(s: State, e: Event): State
    requires Enabled(s, e)
  {
    match e
    case Reload(cur, d) =>
      var live := s.online + s.away;
      var gone := SentAway(d, live);
      State(cur, s.online - gone, s.away + gone, Reloaded(s.at, cur, d, live),
            s.drains + multiset(ToSet(d.removedNodes) * live))
    case Join(n) => s.(online := s.online + {n}, at := Joined(s.cfg, s.at, n))
    case Fade(n) => s.(online := s.online - {n}, away := s.away + {n})
    case Leave(n) => s.(online := s.online - {n}, away := s.away - {n}, at := Freed(s.at, n))
    case Drop(n) => s.(at := Freed(s.at, n), drains := s.drains - multiset{n})
  }

  ghost predicate Run(s: State, es: seq<Event>, t: State)
    decreases |es|
  {
    if es == [] then t == s else Enabled(s, es[0]) && Run(Next(s, es[0]), es[1..], t)
  }

  /** The ports of online nodes that are not served after e, when lost are not before: the end
      of a drain adds those of an online node of that name; a port that changes hands and a node
      that leaves take theirs out. */
  ghost function LostAfter(s: State, e: Event, lost: set<nat>): set<nat>
    requires Enabled(s, e)
  {
    match e
    case Reload(cur, d) => StillLost(s.cfg, cur, lost) * Rebuilt(cur, Next(s, e).online).Keys
    case Join(_) => lost
    case Fade(n) => lost - OwnedPorts(s.cfg, n)
    case Leave(n) => lost - OwnedPorts(s.cfg, n)
    case Drop(n) => if n in s.online then lost + OwnedPorts(s.cfg, n) else lost
  }

  ghost function LostBy(s: State, es: seq<Event>, lost: set<nat>): set<nat>
    decreases |es|
  {
    if es == [] || !Enabled(s, es[0]) then lost else LostBy(Next(s, es[0]), es[1..], LostAfter(s, es[0], lost))
  }

  /** The listeners are what a rebuild would start, but for the lost ports. */
  ghost predicate Settled(s: State, lost: set<nat>) {
    && WellFormed(s.cfg) && s.online !! s.away
    && lost <= Rebuilt(s.cfg, s.online).Keys
    && Serving(s.at, s.away) == Rebuilt(s.cfg, s.online) - lost
  }

  lemma Trim(wanted: map<nat, string>, lost: set<nat>)
    ensures wanted - lost == wanted - (lost * wanted.Keys)
  {
  }

  lemma ReloadSettles(s: State, cur: Config, d: Diff, lost: set<nat>)
    requires Settled(s, lost) && Enabled(s, Reload(cur, d))
    ensures Settled(Next(s, Reload(cur, d)), LostAfter(s, Reload(cur, d), lost))
  {
    var live := s.online + s.away;
    var gone := SentAway(d, live);
    assert live - s.away == s.online;
    ReloadIsRebuild(s.cfg, cur, d, live, s.away, s.at, lost);
    assert live - (s.away + gone) == s.online - gone;
    Trim(Rebuilt(cur, s.online - gone), StillLost(s.cfg, cur, lost));
  }

  lemma GoingSettles(s: State, e: Event, lost: set<nat>)
    requires Settled(s, lost) && Enabled(s, e) && (e.Fade? || e.Leave?)
    ensures Settled(Next(s, e), LostAfter(s, e, lost))
  {
    var wanted := Rebuilt(s.cfg, s.online - {e.n});
    assert wanted - lost == wanted - (lost - OwnedPorts(s.cfg, e.n)) && lost - OwnedPorts(s.cfg, e.n) <= wanted.Keys;
    if e.Fade? {
      LeavingKeeps(s.cfg, s.online, s.away, s.at, lost, {e.n});
    } else {
      LeftKeeps(s.cfg, s.online, s.away, s.at, lost, e.n);
    }
  }

  lemma DropSettles(s: State, n: string, lost: set<nat>)
    requires Settled(s, lost) && Enabled(s, Drop(n))
    ensures Settled(Next(s, Drop(n)), LostAfter(s, Drop(n), lost))
  {
    DroppingLoses(s.cfg, s.online, s.away, s.at, lost, n);
    var wanted := Rebuilt(s.cfg, s.online);
    if n in s.online {
      assert OwnedPorts(s.cfg, n) <= wanted.Keys;
    } else {
      assert wanted - (lost + OwnedPorts(s.cfg, n)) == wanted - lost;
    }
  }

  lemma JoinSettles(s: State, n: string, lost: set<nat>)
    requires Settled(s, lost) && Enabled(s, Join(n))
    ensures Settled(Next(s, Join(n)), lost)
  {
    assert lost !! OwnedPorts(s.cfg, n);
    JoinedKeeps(s.cfg, s.online, s.away, s.at, lost, n);
    assert Rebuilt(s.cfg, s.online).Keys <= Rebuilt(s.cfg, s.online + {n}).Keys;
  }

  lemma {:induction false} RunSettles(s: State, es: seq<Event>, t: State, lost: set<nat>)
    requires Settled(s, lost) && Run(s, es, t)
    ensures Settled(t, LostBy(s, es, lost))
    decreases |es|
  {
    if es != [] {
      match es[0] {
        case Reload(cur, d) => ReloadSettles(s, cur, d, lost);
        case Join(n) => JoinSettles(s, n, lost);
        case Drop(n) => DropSettles(s, n, lost);
        case _ => GoingSettles(s, es[0], lost);
      }
      RunSettles(Next(s, es[0]), es[1..], t, LostAfter(s, es[0], lost));
    }
  }

  lemma StartSettles(c: Config)
    requires WellFormed(c)
    ensures Settled(Start(c), {})
  {
    assert Rebuilt(c, {}) - {} == map[];
  }

  /** Whatever reloads, arrivals, departures and drain ends a run has, the ports served for the
      nodes not going away are those a rebuild would start, less the lost ones. So the two agree
      if and only if nothing is lost. */
  lemma ServesUnlessLost(c: Config, es: seq<Event>, t: State)
    requires WellFormed(c) && Run(Start(c), es, t)
    ensures Serving(t.at, t.away) == Rebuilt(t.cfg, t.online) - LostBy(Start(c), es, {})
    ensures Serving(t.at, t.away) == Rebuilt(t.cfg, t.online) <==> LostBy(Start(c), es, {}) == {}
  {
    StartSettles(c);
    RunSettles(Start(c), es, t, {});
    MissingIsNotAll(Rebuilt(t.cfg, t.online), LostBy(Start(c), es, {}));
  }

  /** No drain ends when a node of that name is online and owns a port. */
  ghost predicate NoLateDrain(s: State, es: seq<Event>)
    decreases |es|
  {
    es == [] || !Enabled(s, es[0])
    || ((es[0].Drop? ==> es[0].n !in s.online || OwnedPorts(s.cfg, es[0].n) == {})
        && NoLateDrain(Next(s, es[0]), es[1..]))
  }

  lemma {:induction false} OnlyLateDrainsLose(s: State, es: seq<Event>)
    requires NoLateDrain(s, es)
    ensures LostBy(s, es, {}) == {}
    decreases |es|
  {
    if es != [] && Enabled(s, es[0]) {
      assert LostAfter(s, es[0], {}) == {};
      OnlyLateDrainsLose(Next(s, es[0]), es[1..]);
    }
  }

  /** Without such a drain end history does not matter: two servers with the same configuration
      and the same nodes online serve the same ports for the nodes not going away, and those are
      what a rebuild would start. */
  lemma HistoryDoesNotMatter(c: Config, es: seq<Event>, t: State, c': Config, es': seq<Event>, t': State)
    requires WellFormed(c) && Run(Start(c), es, t) && NoLateDrain(Start(c), es)
    requires WellFormed(c') && Run(Start(c'), es', t') && NoLateDrain(Start(c'), es')
    requires t.cfg == t'.cfg && t.online == t'.online
    ensures Serving(t.at, t.away) == Serving(t'.at, t'.away) == Rebuilt(t.cfg, t.online)
  {
    OnlyLateDrainsLose(Start(c), es);
    OnlyLateDrainsLose(Start(c'), es');
    ServesUnlessLost(c, es, t);
    ServesUnlessLost(c', es', t');
  }

  // --- A late drain end ---

  lemma RunFirst(s: State, e: Event, es: seq<Event>, t: State)
    requires Enabled(s, e) && Run(Next(s, e), es, t)
    ensures Run(s, [e] + es, t)
  {
    assert ([e] + es)[1..] == es;
  }

  /** u is where e leads from s. */
  ghost predicate Leads(s: State, e: Event, u: State) { Enabled(s, e) && u == Next(s, e) }

  /** A node that is online is removed by a reload to c0, and leaves; its drain has not ended. */
  lemma Removal(s: State, c0: Config, gone: Diff, n: string) returns (u: State, t: State)
    requires s.online == {n} && s.away == {} && WellFormed(c0) && IsDiff(s.cfg, c0, gone)
    requires n in s.cfg.nodes && n !in c0.nodes
    ensures Leads(s, Reload(c0, gone), u) && Leads(u, Leave(n), t)
    ensures t.cfg == c0 && t.online == {} && t.away == {} && n in t.drains
  {
    assert s.online + s.away == {n} && n in ToSet(gone.removedNodes);
    assert SentAway(gone, {n}) == {n} && ToSet(gone.removedNodes) * {n} == {n};
    u := Next(s, Reload(c0, gone));
    t := Next(u, Leave(n));
  }

  /** A reload to c brings it back into the configuration, and it joins. */
  lemma Comeback(s: State, c: Config, back: Diff, n: string) returns (u: State, t: State)
    requires s.online == {} && s.away == {} && n in s.drains && WellFormed(c) && IsDiff(s.cfg, c, back) && n in c.nodes
    ensures Leads(s, Reload(c, back), u) && Leads(u, Join(n), t)
    ensures t.cfg == c && t.online == {n} && t.away == {} && n in t.drains
  {
    u := Next(s, Reload(c, back));
    assert u.online == {} && u.away == {};
    t := Next(u, Join(n));
  }

  lemma ThreeSteps(s: State, e: Event, u: State, e': Event, u': State, e'': Event, t: State, es: seq<Event>, end: State)
    requires Leads(s, e, u) && Leads(u, e', u') && Leads(u', e'', t) && Run(t, es, end)
    ensures Run(s, [e] + ([e'] + ([e''] + es)), end)
  {
    RunFirst(u', e'', es, end);
    RunFirst(u, e', [e''] + es, end);
    RunFirst(s, e, [e'] + ([e''] + es), end);
  }

  /** When a node comes back before an earlier drain of it has ended, the end of that drain takes
      its listeners away: it is online, nothing is going away, the configuration gives it ports,
      and none of them is served. */
  lemma LateDrainLosesListeners(c: Config, c0: Config, gone: Diff, back: Diff, n: string, p: nat)
    returns (es: seq<Event>, t: State)
    requires WellFormed(c) && WellFormed(c0) && IsDiff(c, c0, gone) && IsDiff(c0, c, back)
    requires n in c.nodes && n !in c0.nodes && p in c.ports && c.ports[p].node == n
    ensures Run(Start(c), es, t)
    ensures t.cfg == c && t.online == {n} && t.away == {} && p !in Serving(t.at, t.away)
    ensures Serving(t.at, t.away) != Rebuilt(t.cfg, t.online)
  {
    var s1 := Next(Start(c), Join(n));
    var s2, s3 := Removal(s1, c0, gone, n);
    var s4, s5 := Comeback(s3, c, back, n);
    t := Next(s5, Drop(n));
    es := [Reload(c, back)] + ([Join(n)] + ([Drop(n)] + []));
    ThreeSteps(s3, Reload(c, back), s4, Join(n), s5, Drop(n), t, [], t);
    ThreeSteps(Start(c), Join(n), s1, Reload(c0, gone), s2, Leave(n), s3, es, t);
    es := [Join(n)] + ([Reload(c0, gone)] + ([Leave(n)] + es));
    assert t.at == Freed(s5.at, n);
    NotServed(c, es, t, n, p);
  }

  /** A port of an online node that has no listener for it is not served. */
  lemma NotServed(c: Config, es: seq<Event>, t: State, n: string, p: nat)
    requires WellFormed(c) && Run(Start(c), es, t)
    requires p in t.cfg.ports && t.cfg.ports[p].node == n && n in t.online && (p in t.at ==> t.at[p] != n)
    ensures p !in Serving(t.at, t.away) && Serving(t.at, t.away) != Rebuilt(t.cfg, t.online)
  {
    ServesUnlessLost(c, es, t);
    assert p in Rebuilt(t.cfg, t.online) && Rebuilt(t.cfg, t.online)[p] == n;
  }

  ghost function OneNode(): Config {
    Config(":1", "", Settings(1, 1, 1, 1), map["a" := NodeSpec("a", "k", 1)], ["a"],
           map[80 := PortSpec(80, "a", "r")], [80])
  }

  ghost function NoNode(): Config {
    Config(":1", "", Settings(1, 1, 1, 1), map[], [], map[], [])
  }

  lemma OneNodeIsWellFormed()
    ensures WellFormed(OneNode()) && WellFormed(NoNode())
  {
  }

  lemma NodeGoes()
    ensures IsDiff(OneNode(), NoNode(), Diff([], ["a"], [], [], [80], [], false))
  {
    assert forall n :: !NeedsPush(OneNode(), NoNode(), n) && !KeyChanged(OneNode(), NoNode(), n);
  }

  lemma NodeReturns()
    ensures IsDiff(NoNode(), OneNode(), Diff(["a"], [], [], [80], [], [], false))
  {
    assert forall n :: !NeedsPush(NoNode(), OneNode(), n) && !KeyChanged(NoNode(), OneNode(), n);
  }

  /** One node with one port is enough. */
  lemma ItHappens() returns (c: Config, es: seq<Event>, t: State)
    ensures WellFormed(c) && Run(Start(c), es, t)
    ensures t.cfg == c && t.away == {} && Serving(t.at, t.away) != Rebuilt(t.cfg, t.online)
  {
    OneNodeIsWellFormed();
    NodeGoes();
    NodeReturns();
    c := OneNode();
    es, t := LateDrainLosesListeners(c, NoNode(), Diff([], ["a"], [], [], [80], [], false),
                                     Diff(["a"], [], [], [80], [], [], false), "a", 80);
  }
}
