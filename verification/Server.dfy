/** The server's running state: one listener per port of an online node, one session per
    node, and the steps that change them: a reload, a node coming online, a node leaving. */
module Server {
  import opened Basics
  import opened Config
  import opened Diff
  import opened Rebuild

  class PortListener {
    const port: nat
    const node: string
    var accepting: bool
    var conns: set<nat>  // connections being forwarded

    constructor (port: nat, node: string)
      ensures this.port == port && this.node == node && accepting && conns == {}
    {
      this.port, this.node := port, node;
      accepting, conns := true, {};
    }

    /** Stops accepting; a hard stop also closes every connection. */
    method Stop(graceful: bool)
      modifies this`accepting, (if graceful then {} else {this})`conns
      ensures !accepting && (!graceful ==> conns == {})
    {
      accepting := false;
      if !graceful {
        conns := {};
      }
    }
  }

  /** The control-channel side of a node session. */
  class Session {
    const name: string
    var cfg: NodeConfig
    var queueTimeout: int
    var draining: bool
    var closed: bool
    var pushes: nat  // reload_config messages sent

    constructor (name: string, cfg: NodeConfig, queueTimeout: int)
      ensures this.name == name && this.cfg == cfg && this.queueTimeout == queueTimeout
      ensures !draining && !closed && pushes == 0
    {
      this.name, this.cfg, this.queueTimeout := name, cfg, queueTimeout;
      draining, closed, pushes := false, false, 0;
    }

    /** On its way out: still registered until its own goroutine unregisters it. */
    ghost predicate Leaving()
      reads `draining, `closed
    {
      draining || closed
    }
  }

  /** The listeners left when those of some nodes have gone. */
  ghost function Others(items: map<nat, PortListener>, gone: set<string>): map<nat, PortListener> {
    map p | p in items && items[p].node !in gone :: items[p]
  }

  ghost function OwnedBy(items: map<nat, PortListener>, names: set<string>): set<PortListener> {
    set l | l in items.Values && l.node in names
  }

  lemma OthersAgain(items: map<nat, PortListener>, gone: set<string>, more: set<string>)
    ensures Others(Others(items, gone), more) == Others(items, gone + more)
    ensures Others(items, {}) == items
    ensures OwnedBy(Others(items, gone), more) == OwnedBy(items, more - gone)
    ensures OwnedBy(items, gone + more) == OwnedBy(items, gone) + OwnedBy(Others(items, gone), more)
  {
    var left := Others(items, gone);
    forall l | l in OwnedBy(items, more - gone)
      ensures l in left.Values
    {
      var p := KeyOf(items, l);
      assert p in left && left[p] == l;
    }
    forall l | l in left.Values
      ensures l in items.Values && l.node !in gone
    {
      var p := KeyOf(left, l);
    }
  }

  /** The listeners that none of the stopping steps of a reload touches. */
  ghost function Keeping(items: map<nat, PortListener>, d: Diff, live: set<string>): map<nat, PortListener> {
    map p | p in items && items[p].node !in SentAway(d, live) && p !in d.removedPorts :: items[p]
  }

  ghost function OwnersOf(items: map<nat, PortListener>): map<nat, string> {
    map p | p in items :: items[p].node
  }

  lemma OthersOwners(items: map<nat, PortListener>, n: string)
    ensures OwnersOf(Others(items, {n})) == Freed(OwnersOf(items), n)
  {
  }

  lemma KeepingOwners(items: map<nat, PortListener>, d: Diff, live: set<string>)
    ensures OwnersOf(Keeping(items, d, live)) == Kept(OwnersOf(items), d, live)
  {
  }

  /** The listeners that have to make way for another node's. */
  ghost function Displaced(items: map<nat, PortListener>, up: map<nat, string>): set<PortListener> {
    set l | l in items.Values && l.port in up && up[l.port] != l.node
  }

  /** The listeners whose connections a reload cuts: those of nodes under a new key, and those
      that have to make way. */
  ghost function Cut(items: map<nat, PortListener>, d: Diff, cur: Config, live: set<string>): set<PortListener> {
    OwnedBy(items, ToSet(d.keyChangedNodes) * live)
    + Displaced(Keeping(items, d, live), Startable(cur, live, ToSet(d.addedPorts)))
  }

  /** The listeners are still those, except where a port went to another node. */
  ghost predicate Survive(before: map<nat, PortListener>, after: map<nat, PortListener>, up: map<nat, string>) {
    forall p | p in before && (p in up ==> up[p] == before[p].node) :: p in after && after[p] == before[p]
  }

  /** Starting some ports and then others displaces what starting them all does. */
  lemma DisplacedStep(was: map<nat, PortListener>, mid: map<nat, PortListener>, up: map<nat, string>,
                      more: map<nat, string>)
    requires (forall p | p in was :: was[p].port == p) && forall p | p in mid :: mid[p].port == p
    requires OwnersOf(mid) == OwnersOf(was) + up && Survive(was, mid, up)
    requires forall p | p in up && p in more :: up[p] == more[p]
    ensures Displaced(was, up + more) == Displaced(was, up) + Displaced(mid, more)
  {
    AtPort(was);
    AtPort(mid);
    forall l | l in Displaced(mid, more)
      ensures l in Displaced(was, up + more)
    {
      assert OwnersOf(mid)[l.port] == l.node;
    }
    forall l | l in Displaced(was, up + more) && l !in Displaced(was, up)
      ensures l in Displaced(mid, more)
    {
      assert mid[l.port] == l;
    }
  }

  lemma SurviveBoth(was: map<nat, PortListener>, mid: map<nat, PortListener>, after: map<nat, PortListener>,
                    up: map<nat, string>, more: map<nat, string>)
    requires Survive(was, mid, up) && Survive(mid, after, more)
    requires forall p | p in up && p in more :: up[p] == more[p]
    ensures Survive(was, after, up + more)
  {
  }

  lemma DisplacedPart(was: map<nat, PortListener>, c: Config, names: set<string>, ports: seq<nat>, n: nat)
    requires n <= |ports|
    ensures Displaced(was, Startable(c, names, ToSet(ports[..n]))) <= Displaced(was, Startable(c, names, ToSet(ports)))
  {
  }

  lemma AtPort(items: map<nat, PortListener>)
    requires forall p | p in items :: items[p].port == p
    ensures forall l | l in items.Values :: l.port in items && items[l.port] == l
  {
    forall l | l in items.Values
      ensures l.port in items && items[l.port] == l
    {
      var p := KeyOf(items, l);
    }
  }

  datatype Told = Told(cfg: NodeConfig, queueTimeout: int, pushes: nat)

  /** After one push each to those of the named nodes that are configured; say is what they
      are told. */
  ghost function AfterPush(say: map<string, NodeConfig>, timeout: int, told: map<string, Told>,
                           names: set<string>): map<string, Told> {
    map n | n in told ::
      if n in names && n in say then Told(say[n], timeout, told[n].pushes + 1) else told[n]
  }

  ghost function Configured(c: Config): map<string, NodeConfig> {
    map n | n in c.nodes :: NodeConfigOf(c, n).value
  }

  lemma PushOne(say: map<string, NodeConfig>, timeout: int, told: map<string, Told>, n: string)
    ensures AfterPush(say, timeout, told, {n}) ==
              if n in told && n in say then told[n := Told(say[n], timeout, told[n].pushes + 1)] else told
  {
  }

  lemma PushMore(say: map<string, NodeConfig>, timeout: int, told: map<string, Told>, names: set<string>,
                 more: set<string>)
    requires names !! more
    ensures AfterPush(say, timeout, AfterPush(say, timeout, told, names), more) ==
            AfterPush(say, timeout, told, names + more)
    ensures AfterPush(say, timeout, told, {}) == told
  {
  }

  /** Each of those sessions was last told what its node is configured to be told. */
  ghost predicate UpToDate(c: Config, told: map<string, Told>, names: set<string>) {
    forall n | n in names ::
      n in told && NodeConfigOf(c, n) == Some(told[n].cfg) && told[n].queueTimeout == c.settings.queueTimeout
  }

  /** Every one of those nodes is configured, and those told something else are listed. */
  ghost predicate ListsChanges(prev: Config, cur: Config, d: Diff, names: set<string>) {
    && (!d.settingsChanged ==> prev.settings == cur.settings)
    && forall n | n in names && n in prev.nodes ::
         n in cur.nodes && (n !in d.changedNodes ==> NodeConfigOf(prev, n) == NodeConfigOf(cur, n))
  }

  lemma OneMoreUpToDate(c: Config, told: map<string, Told>, names: set<string>, n: string, t: Told)
    requires UpToDate(c, told, names) && NodeConfigOf(c, n) == Some(t.cfg) && t.queueTimeout == c.settings.queueTimeout
    ensures UpToDate(c, told[n := t], names + {n})
  {
  }

  lemma PushUpdates(prev: Config, cur: Config, d: Diff, told: map<string, Told>, names: set<string>,
                    audience: set<string>)
    requires UpToDate(prev, told, names) && ListsChanges(prev, cur, d, names)
    requires forall n | n in names && (n in d.changedNodes || d.settingsChanged) :: n in audience
    ensures UpToDate(cur, AfterPush(Configured(cur), cur.settings.queueTimeout, told, audience), names)
  {
    var told' := AfterPush(Configured(cur), cur.settings.queueTimeout, told, audience);
    forall n | n in names
      ensures n in told' && NodeConfigOf(cur, n) == Some(told'[n].cfg)
              && told'[n].queueTimeout == cur.settings.queueTimeout
    {
      assert n in prev.nodes;
    }
  }

  class Server {
    var cfg: Config
    var live: map<string, Session>     // the registry
    var items: map<nat, PortListener>  // the listeners

    ghost predicate Wf()
      reads `live, `items
    {
      && (forall n | n in live :: live[n].name == n)
      && (forall p | p in items :: items[p].port == p)
    }

    ghost predicate Accepting()
      reads `items, items.Values`accepting
    {
      forall p | p in items :: items[p].accepting
    }

    /** The nodes whose session is not on its way out. */
    ghost function Online(): set<string>
      reads `live, live.Values`draining, live.Values`closed
    {
      set n | n in live && !live[n].Leaving()
    }

    ghost function Away(): set<string>
      reads `live, live.Values`draining, live.Values`closed
    {
      set n | n in live && live[n].Leaving()
    }

    ghost function Owners(): map<nat, string>
      reads `items
    {
      OwnersOf(items)
    }

    /** The listeners are what a rebuild from the configuration would start, apart from those
        of nodes going away; and every online session holds what its node is to be told. */
    ghost predicate Agree()
      reads this, live.Values, items.Values
    {
      ListenersAgree() && SessionsAgree(cfg)
    }

    ghost predicate ListenersAgree()
      reads `cfg, `live, `items, live.Values`draining, live.Values`closed, items.Values`accepting
    {
      Wf() && Accepting() && Serving(Owners(), Away()) == Rebuilt(cfg, Online())
    }

    /** What each session was told last, and how often it was told anew. */
    ghost function Tellings(): map<string, Told>
      reads `live, live.Values`cfg, live.Values`queueTimeout, live.Values`pushes
    {
      map n | n in live :: Told(live[n].cfg, live[n].queueTimeout, live[n].pushes)
    }

    ghost predicate SessionsAgree(c: Config)
      reads `live, live.Values`draining, live.Values`closed, live.Values`cfg, live.Values`queueTimeout,
            live.Values`pushes
    {
      UpToDate(c, Tellings(), Online())
    }

    constructor (c: Config)
      requires WellFormed(c)
      ensures Agree() && cfg == c && live == map[] && items == map[]
    {
      cfg, live, items := c, map[], map[];
    }

    // --- Listeners ---

    method StopPort(port: nat, graceful: bool)
      modifies this`items
      modifies (if port in items then {items[port]} else {})`accepting
      modifies (if port in items && !graceful then {items[port]} else {})`conns
      ensures items == old(items) - {port}
      ensures port in old(items) ==>
                !old(items)[port].accepting && (!graceful ==> old(items)[port].conns == {})
    {
      if port !in items {
        assert items - {port} == items;
        return;
      }
      var pl := items[port];
      items := items - {port};
      pl.Stop(graceful);
    }

    method StopNode(node: string, graceful: bool)
      modifies this`items
      modifies OwnedBy(items, {node})`accepting, (if graceful then {} else OwnedBy(items, {node}))`conns
      ensures items == Others(old(items), {node})
      ensures forall l | l in OwnedBy(old(items), {node}) :: !l.accepting && (!graceful ==> l.conns == {})
    {
      var victims := set l | l in items.Values && l.node == node;
      items := map p | p in items && items[p].node != node :: items[p];
      StopAll(victims, graceful);
    }

    method StopAll(victims: set<PortListener>, graceful: bool)
      modifies victims`accepting, (if graceful then {} else victims)`conns
      ensures forall l | l in victims :: !l.accepting && (!graceful ==> l.conns == {})
    {
      var todo := victims;
      while todo != {}
        invariant todo <= victims
        invariant forall l | l in victims - todo :: !l.accepting && (!graceful ==> l.conns == {})
        decreases todo
      {
        var l :| l in todo;
        l.Stop(graceful);
        todo := todo - {l};
      }
    }

    /** Starts a listener if the owning node is registered; one that already runs for that
        node is left alone, one that runs for another node is stopped hard and replaced. */
    method StartPort(spec: PortSpec)
      modifies this`items
      modifies (if spec.node in live && spec.port in items && items[spec.port].node != spec.node
                then {items[spec.port]} else {})`accepting
      modifies (if spec.node in live && spec.port in items && items[spec.port].node != spec.node
                then {items[spec.port]} else {})`conns
      ensures spec.node !in live ==> items == old(items)
      ensures spec.node in live ==>
                && spec.port in items && items == old(items)[spec.port := items[spec.port]]
                && items[spec.port].node == spec.node
                && if spec.port in old(items) && old(items)[spec.port].node == spec.node
                   then items[spec.port] == old(items)[spec.port]
                   else fresh(items[spec.port]) && items[spec.port].port == spec.port && items[spec.port].accepting
      ensures spec.port in old(items) && old(items)[spec.port].node != spec.node && spec.node in live ==>
                !old(items)[spec.port].accepting && old(items)[spec.port].conns == {}
    {
      if spec.node !in live {
        return;
      }
      if spec.port in items {
        if items[spec.port].node == spec.node {
          assert items == items[spec.port := items[spec.port]];
          return;
        }
        StopPort(spec.port, false);
      }
      var pl := new PortListener(spec.port, spec.node);
      items := items[spec.port := pl];
      assert items == old(items)[spec.port := pl];
    }

    // --- The listener steps of a reload ---

    /** drainNode: asks a live node to drain and stops its listeners gracefully. */
    method DrainNode(name: string)
      requires Wf()
      modifies this`items, OwnedBy(items, {name} * live.Keys)`accepting, live.Values`draining
      ensures Wf() && items == Others(old(items), {name} * live.Keys)
      ensures forall l | l in OwnedBy(old(items), {name} * live.Keys) :: !l.accepting
      ensures forall n | n in live :: live[n].draining == (old(live[n].draining) || n == name)
    {
      if name !in live {
        return;
      }
      assert {name} * live.Keys == {name};
      live[name].draining := true;
      StopNode(name, true);
    }

    method DrainNodes(names: seq<string>)
      requires Wf()
      modifies this`items, OwnedBy(items, ToSet(names) * live.Keys)`accepting, live.Values`draining
      ensures Wf() && items == Others(old(items), ToSet(names) * live.Keys)
      ensures forall l | l in OwnedBy(old(items), ToSet(names) * live.Keys) :: !l.accepting
      ensures forall n | n in live :: live[n].draining == (old(live[n].draining) || n in names)
    {
      ghost var was, gone := items, {};
      OthersAgain(was, {}, {});
      for i := 0 to |names|
        invariant gone == ToSet(names[..i]) * live.Keys
        invariant Wf() && items == Others(was, gone)
        invariant forall l | l in OwnedBy(was, gone) :: !l.accepting
        invariant forall n | n in live :: live[n].draining == (old(live[n].draining) || n in gone)
      {
        OthersAgain(was, gone, {names[i]} * live.Keys);
        ToSetStep(names, i);
        DrainNode(names[i]);
        gone := gone + {names[i]} * live.Keys;
      }
      assert names[..|names|] == names;
    }

    /** Key changed: stops a live node's listeners hard and closes its session. */
    method CloseNode(name: string)
      requires Wf()
      modifies this`items, live.Values`closed
      modifies OwnedBy(items, {name} * live.Keys)`accepting, OwnedBy(items, {name} * live.Keys)`conns
      ensures Wf() && items == Others(old(items), {name} * live.Keys)
      ensures forall l | l in OwnedBy(old(items), {name} * live.Keys) :: !l.accepting && l.conns == {}
      ensures forall n | n in live :: live[n].closed == (old(live[n].closed) || n == name)
    {
      if name !in live {
        return;
      }
      assert {name} * live.Keys == {name};
      StopNode(name, false);
      live[name].closed := true;
    }

    method CloseNodes(names: seq<string>)
      requires Wf()
      modifies this`items, live.Values`closed
      modifies OwnedBy(items, ToSet(names) * live.Keys)`accepting, OwnedBy(items, ToSet(names) * live.Keys)`conns
      ensures Wf() && items == Others(old(items), ToSet(names) * live.Keys)
      ensures forall l | l in OwnedBy(old(items), ToSet(names) * live.Keys) :: !l.accepting && l.conns == {}
      ensures forall n | n in live :: live[n].closed == (old(live[n].closed) || n in names)
    {
      ghost var was, gone := items, {};
      OthersAgain(was, {}, {});
      for i := 0 to |names|
        invariant gone == ToSet(names[..i]) * live.Keys
        invariant Wf() && items == Others(was, gone)
        invariant forall l | l in OwnedBy(was, gone) :: !l.accepting && l.conns == {}
        invariant forall n | n in live :: live[n].closed == (old(live[n].closed) || n in gone)
      {
        OthersAgain(was, gone, {names[i]} * live.Keys);
        ToSetStep(names, i);
        CloseNode(names[i]);
        gone := gone + {names[i]} * live.Keys;
      }
      assert names[..|names|] == names;
    }

    /** Removed ports stop accepting; what they forward runs on. */
    method StopPorts(ports: seq<nat>)
      requires Wf()
      modifies this`items, (set p | p in items && p in ports :: items[p])`accepting
      ensures Wf() && items == old(items) - ToSet(ports)
      ensures forall p | p in old(items) && p in ports :: !old(items)[p].accepting
    {
      ghost var was := items;
      for i := 0 to |ports|
        invariant Wf() && items == was - ToSet(ports[..i])
        invariant forall p | p in was && p in ToSet(ports[..i]) :: !was[p].accepting
      {
        ToSetStep(ports, i);
        StopPort(ports[i], true);
      }
      assert ports[..|ports|] == ports;
    }

    method StartOne(port: nat, ghost one: map<nat, string>, ghost out: set<PortListener>)
      requires Wf() && Accepting() && (port in cfg.ports ==> cfg.ports[port].port == port)
      requires one == Startable(cfg, live.Keys, {port}) && out == Displaced(items, one)
      modifies this`items, out`accepting, out`conns
      ensures Wf() && Accepting() && Owners() == old(Owners()) + one && Survive(old(items), items, one)
      ensures forall l | l in out :: !l.accepting && l.conns == {}
    {
      if port !in cfg.ports || cfg.ports[port].node !in live {
        assert one == map[];
      } else {
        assert one == map[port := cfg.ports[port].node];
      }
      AtPort(items);
      if port in cfg.ports {
        StartPort(cfg.ports[port]);
      }
    }

    /** From the listeners in was, those in up are started: the owners follow, listeners of the
        same owner are the same objects, displaced ones are stopped hard. */
    ghost predicate Brought(was: map<nat, PortListener>, up: map<nat, string>)
      reads `items, was.Values`accepting, was.Values`conns
    {
      && Owners() == OwnersOf(was) + up
      && Survive(was, items, up)
      && forall l | l in Displaced(was, up) :: !l.accepting && l.conns == {}
    }

    method StartNext(port: nat, ghost was: map<nat, PortListener>, ghost up: map<nat, string>,
                     ghost one: map<nat, string>, ghost out: set<PortListener>)
      requires Wf() && Accepting() && (port in cfg.ports ==> cfg.ports[port].port == port)
      requires one == Startable(cfg, live.Keys, {port}) && out == Displaced(items, one)
      requires (forall p | p in was :: was[p].port == p) && Brought(was, up)
      requires forall p | p in up && p in one :: up[p] == one[p]
      modifies this`items, out`accepting, out`conns
      ensures Wf() && Accepting() && Brought(was, up + one)
    {
      ghost var mid := items;
      DisplacedStep(was, mid, up, one);
      PlusAssociates(OwnersOf(was), up, one);
      StartOne(port, one, out);
      SurviveBoth(was, mid, items, up, one);
    }

    method StartAdded(ports: seq<nat>)
      requires Wf() && Accepting() && forall p | p in cfg.ports :: cfg.ports[p].port == p
      modifies this`items
      modifies Displaced(items, Startable(cfg, live.Keys, ToSet(ports)))`accepting
      modifies Displaced(items, Startable(cfg, live.Keys, ToSet(ports)))`conns
      ensures Wf() && Accepting() && Brought(old(items), Startable(cfg, live.Keys, ToSet(ports)))
    {
      ghost var was := items;
      for i := 0 to |ports|
        invariant Wf() && Accepting() && Brought(was, Startable(cfg, live.Keys, ToSet(ports[..i])))
      {
        ghost var up, one := Startable(cfg, live.Keys, ToSet(ports[..i])), Startable(cfg, live.Keys, {ports[i]});
        ToSetStep(ports, i);
        StartableMore(cfg, live.Keys, ToSet(ports[..i]), {ports[i]});
        DisplacedStep(was, items, up, one);
        DisplacedPart(was, cfg, live.Keys, ports, i + 1);
        StartNext(ports[i], was, up, one, Displaced(items, one));
      }
      assert ports[..|ports|] == ports;
    }

    /** Drains removed nodes and drops nodes under a new key; only the latter cuts connections. */
    method SendAway(d: Diff)
      requires Wf() && Accepting()
      modifies this`items, live.Values`draining, live.Values`closed
      modifies items.Values`accepting, OwnedBy(items, ToSet(d.keyChangedNodes) * live.Keys)`conns
      ensures Wf() && Accepting() && items == Others(old(items), SentAway(d, live.Keys))
      ensures forall l | l in OwnedBy(old(items), SentAway(d, live.Keys)) :: !l.accepting
      ensures forall n | n in live ::
                && live[n].draining == (old(live[n].draining) || n in d.removedNodes)
                && live[n].closed == (old(live[n].closed) || n in d.keyChangedNodes)
    {
      ghost var removed, keyChanged := ToSet(d.removedNodes) * live.Keys, ToSet(d.keyChangedNodes) * live.Keys;
      OthersAgain(items, removed, keyChanged);
      assert removed + keyChanged == SentAway(d, live.Keys);
      DrainNodes(d.removedNodes);
      CloseNodes(d.keyChangedNodes);
    }

    /** And stops lost ports. */
    method StopLost(d: Diff)
      requires Wf() && Accepting()
      modifies this`items, live.Values`draining, live.Values`closed
      modifies items.Values`accepting, OwnedBy(items, ToSet(d.keyChangedNodes) * live.Keys)`conns
      ensures Wf() && Accepting() && items == Keeping(old(items), d, live.Keys)
      ensures forall p | p in old(items) && p !in items :: !old(items)[p].accepting
      ensures forall n | n in live ::
                && live[n].draining == (old(live[n].draining) || n in d.removedNodes)
                && live[n].closed == (old(live[n].closed) || n in d.keyChangedNodes)
    {
      SendAway(d);
      assert Others(old(items), SentAway(d, live.Keys)) - ToSet(d.removedPorts) == Keeping(old(items), d, live.Keys);
      StopPorts(d.removedPorts);
    }

    /** What has become of the listeners: those kept are the same objects, the others do not
        accept, those whose port went from one registered node to another are cut. */
    ghost predicate Landed(before: map<nat, PortListener>, d: Diff)
      reads `cfg, `live, `items, before.Values`accepting, before.Values`conns
    {
      var kept, up := Keeping(before, d, live.Keys), Startable(cfg, live.Keys, ToSet(d.addedPorts));
      && Survive(kept, items, up)
      && (forall p | p in before && p !in kept :: !before[p].accepting)
      && forall l | l in Displaced(kept, up) :: !l.accepting && l.conns == {}
    }

    method StartRest(d: Diff, ghost before: map<nat, PortListener>)
      requires Wf() && Accepting() && forall p | p in cfg.ports :: cfg.ports[p].port == p
      requires items == Keeping(before, d, live.Keys) && forall p | p in before && p !in items :: !before[p].accepting
      modifies this`items
      modifies Displaced(items, Startable(cfg, live.Keys, ToSet(d.addedPorts)))`accepting
      modifies Displaced(items, Startable(cfg, live.Keys, ToSet(d.addedPorts)))`conns
      ensures Wf() && Accepting() && Landed(before, d)
      ensures Owners() == Reloaded(OwnersOf(before), cfg, d, live.Keys)
    {
      KeepingOwners(before, d, live.Keys);
      StartAdded(d.addedPorts);
    }

    /** Stops what is lost, publishes the configuration, starts what is added. */
    method MoveListeners(d: Diff, newCfg: Config)
      requires Wf() && Accepting() && forall p | p in newCfg.ports :: newCfg.ports[p].port == p
      modifies this`cfg, this`items, live.Values`draining, live.Values`closed
      modifies items.Values`accepting, OwnedBy(items, ToSet(d.keyChangedNodes) * live.Keys)`conns
      modifies Displaced(Keeping(items, d, live.Keys), Startable(newCfg, live.Keys, ToSet(d.addedPorts)))`conns
      ensures cfg == newCfg && Wf() && Accepting()
      ensures Owners() == Reloaded(old(Owners()), newCfg, d, live.Keys)
      ensures Landed(old(items), d)
      ensures forall n | n in live ::
                && live[n].draining == (old(live[n].draining) || n in d.removedNodes)
                && live[n].closed == (old(live[n].closed) || n in d.keyChangedNodes)
    {
      ghost var before := items;
      StopLost(d);
      cfg := newCfg;
      StartRest(d, before);
    }

    // --- The sessions in a reload ---

    /** SetConfig and the reload_config message, to a registered node that is configured. */
    method Tell(name: string, said: Option<NodeConfig>, ghost say: map<string, NodeConfig>)
      requires Wf() && if said == None then name !in say else name in say && say[name] == said.value
      modifies live.Values`cfg, live.Values`queueTimeout, live.Values`pushes
      ensures Tellings() == AfterPush(say, cfg.settings.queueTimeout, old(Tellings()), {name})
    {
      ghost var told := Tellings();
      PushOne(say, cfg.settings.queueTimeout, told, name);
      if name in live && said != None {
        live[name].cfg := said.value;
        live[name].queueTimeout := cfg.settings.queueTimeout;
        live[name].pushes := live[name].pushes + 1;
        assert Tellings() == told[name := Told(said.value, cfg.settings.queueTimeout, told[name].pushes + 1)];
      }
    }

    method Lookup(name: string) returns (said: Option<NodeConfig>)
      requires WellFormed(cfg)
      ensures var say := Configured(cfg); if said == None then name !in say else name in say && say[name] == said.value
    {
      said := BuildNodeConfig(cfg, name);
    }

    /** pushConfig: looks up what the node is to be told, and tells its session. */
    method PushConfig(name: string)
      requires Wf() && WellFormed(cfg)
      modifies live.Values`cfg, live.Values`queueTimeout, live.Values`pushes
      ensures Tellings() == AfterPush(Configured(cfg), cfg.settings.queueTimeout, old(Tellings()), {name})
    {
      ghost var told := Tellings();
      var said := Lookup(name);
      assert Tellings() == told;
      Tell(name, said, Configured(cfg));
    }

    method PushAll(names: seq<string>)
      requires Wf() && WellFormed(cfg) && Distinct(names)
      modifies live.Values`cfg, live.Values`queueTimeout, live.Values`pushes
      ensures Tellings() == AfterPush(Configured(cfg), cfg.settings.queueTimeout, old(Tellings()), ToSet(names))
    {
      for i := 0 to |names|
        invariant Tellings() == AfterPush(Configured(cfg), cfg.settings.queueTimeout, old(Tellings()),
                                          ToSet(names[..i]))
      {
        ToSetStep(names, i);
        PushMore(Configured(cfg), cfg.settings.queueTimeout, old(Tellings()), ToSet(names[..i]), {names[i]});
        PushConfig(names[i]);
      }
      assert names[..|names|] == names;
    }

    method PushOthers(pushed: seq<string>)
      requires Wf() && WellFormed(cfg)
      modifies live.Values`cfg, live.Values`queueTimeout, live.Values`pushes
      ensures Tellings() == AfterPush(Configured(cfg), cfg.settings.queueTimeout, old(Tellings()),
                                      live.Keys - ToSet(pushed))
    {
      var todo := live.Values;
      ghost var done: set<string> := {};
      while todo != {}
        invariant todo <= live.Values
        invariant Tellings() == AfterPush(Configured(cfg), cfg.settings.queueTimeout, old(Tellings()), done)
        invariant forall n | n in live :: n in done <==> live[n] !in todo && n !in pushed
        invariant done <= live.Keys
        decreases todo
      {
        var s :| s in todo;
        NamedBy(live, s);
        todo := todo - {s};
        if s.name !in pushed {
          PushMore(Configured(cfg), cfg.settings.queueTimeout, old(Tellings()), done, {s.name});
          PushConfig(s.name);
          done := done + {s.name};
        }
      }
      assert done == live.Keys - ToSet(pushed);
    }

    /** The sessions a reload pushes to. */
    ghost function Audience(d: Diff): set<string>
      reads `live
    {
      if d.settingsChanged then live.Keys + ToSet(d.changedNodes) else ToSet(d.changedNodes)
    }

    method PushConfigs(d: Diff)
      requires Wf() && WellFormed(cfg) && Distinct(d.changedNodes)
      modifies live.Values`cfg, live.Values`queueTimeout, live.Values`pushes
      ensures Tellings() == AfterPush(Configured(cfg), cfg.settings.queueTimeout, old(Tellings()), Audience(d))
    {
      PushAll(d.changedNodes);
      if d.settingsChanged {
        PushMore(Configured(cfg), cfg.settings.queueTimeout, old(Tellings()), ToSet(d.changedNodes),
                 live.Keys - ToSet(d.changedNodes));
        assert ToSet(d.changedNodes) + (live.Keys - ToSet(d.changedNodes)) == Audience(d);
        PushOthers(d.changedNodes);
      }
    }

    // --- The reload ---

    /** The listeners agree with the configuration, and come from those there were. */
    ghost predicate Placed(was: map<nat, PortListener>, away: set<string>, d: Diff)
      reads `cfg, `live, `items, live.Values`draining, live.Values`closed, items.Values`accepting,
            was.Values`accepting, was.Values`conns
    {
      ListenersAgree() && Landed(was, d) && Away() == away + SentAway(d, live.Keys)
    }

    /** The sessions agree with it, and exactly the audience was told. */
    ghost predicate Retold(told: map<string, Told>, d: Diff)
      reads `cfg, `live
      reads live.Values`draining, live.Values`closed, live.Values`cfg, live.Values`queueTimeout, live.Values`pushes
    {
      SessionsAgree(cfg) && Tellings() == AfterPush(Configured(cfg), cfg.settings.queueTimeout, told, Audience(d))
    }

    /** If the port owners end where a rebuild would, the listeners agree afterwards. */
    method RebuildListeners(d: Diff, newCfg: Config, ghost cut: set<PortListener>)
      requires Wf() && Accepting() && forall p | p in newCfg.ports :: newCfg.ports[p].port == p
      requires Settles(Owners(), newCfg, d, live.Keys, Away()) && cut == Cut(items, d, newCfg, live.Keys)
      modifies this`cfg, this`items, live.Values`draining, live.Values`closed
      modifies items.Values`accepting, cut`conns
      ensures cfg == newCfg && Wf() && Placed(old(items), old(Away()), d)
      ensures Online() == live.Keys - (old(Away()) + SentAway(d, live.Keys))
      ensures Tellings() == old(Tellings())
    {
      ghost var away := Away();
      MoveListeners(d, newCfg);
      assert Away() == away + SentAway(d, live.Keys);
      assert Online() == live.Keys - Away();
    }

    /** Pushing leaves the listeners and who is online alone. */
    method PushOnly(d: Diff, ghost was: map<nat, PortListener>, ghost away: set<string>)
      requires Wf() && WellFormed(cfg) && Distinct(d.changedNodes) && Placed(was, away, d)
      modifies live.Values`cfg, live.Values`queueTimeout, live.Values`pushes
      ensures Placed(was, away, d)
      ensures Tellings() == AfterPush(Configured(cfg), cfg.settings.queueTimeout, old(Tellings()), Audience(d))
    {
      PushConfigs(d);
      assert Placed(was, away, d) == old(Placed(was, away, d));
    }

    /** Then who is left is told the new configuration. */
    method UpdateSessions(ghost prev: Config, d: Diff, ghost was: map<nat, PortListener>, ghost away: set<string>)
      requires Wf() && SessionsAgree(prev) && WellFormed(cfg) && Placed(was, away, d)
      requires Distinct(d.changedNodes) && ListsChanges(prev, cfg, d, Online())
      modifies live.Values`cfg, live.Values`queueTimeout, live.Values`pushes
      ensures Placed(was, away, d) && Retold(old(Tellings()), d)
    {
      PushUpdates(prev, cfg, d, Tellings(), Online(), Audience(d));
      PushOnly(d, was, away);
    }

    /** Both parts, when the plan is sound. */
    method ApplySteps(d: Diff, newCfg: Config, ghost cut: set<PortListener>)
      requires Wf() && Accepting() && SessionsAgree(cfg) && WellFormed(newCfg) && Distinct(d.changedNodes)
      requires Settles(Owners(), newCfg, d, live.Keys, Away()) && cut == Cut(items, d, newCfg, live.Keys)
      requires ListsChanges(cfg, newCfg, d, live.Keys - (Away() + SentAway(d, live.Keys)))
      modifies this`cfg, this`items, live.Values
      modifies items.Values`accepting, cut`conns
      ensures cfg == newCfg && Placed(old(items), old(Away()), d) && Retold(old(Tellings()), d)
    {
      ghost var prev, was, away, told := cfg, items, Away(), Tellings();
      RebuildListeners(d, newCfg, cut);
      assert SessionsAgree(prev) by {
        assert Tellings() == told;
      }
      UpdateSessions(prev, d, was, away);
    }

    /** Only the document order differs, if anything: publish it and leave all else alone. */
    method Adopt(ghost d: Diff, newCfg: Config)
      requires Agree() && Empty(d) && !d.settingsChanged
      requires cfg.nodes == newCfg.nodes && cfg.ports == newCfg.ports && cfg.settings == newCfg.settings
      modifies this`cfg
      ensures cfg == newCfg && Placed(old(items), old(Away()), d) && Retold(old(Tellings()), d)
    {
      NothingToMove(items, newCfg, d, live.Keys);
      SameIsRebuilt(cfg, newCfg, Online(), Tellings());
      PushMore(Configured(newCfg), newCfg.settings.queueTimeout, Tellings(), {}, {});
      cfg := newCfg;
      assert Tellings() == old(Tellings()) && Online() == old(Online()) && Away() == old(Away());
    }

    /** The reload, given the difference: from a state that agrees with the old configuration to
        one that agrees with the new one. */
    method ApplyDiff(d: Diff, newCfg: Config, ghost cut: set<PortListener>)
      requires Agree() && WellFormed(newCfg) && Distinct(d.changedNodes) && cut == Cut(items, d, newCfg, live.Keys)
      requires Settles(Owners(), newCfg, d, live.Keys, Away())
      requires ListsChanges(cfg, newCfg, d, live.Keys - (Away() + SentAway(d, live.Keys)))
      requires Empty(d) && !d.settingsChanged ==>
                 cfg.nodes == newCfg.nodes && cfg.ports == newCfg.ports && cfg.settings == newCfg.settings
      modifies this`cfg, this`items, live.Values
      modifies items.Values`accepting, cut`conns
      ensures cfg == newCfg && Placed(old(items), old(Away()), d) && Retold(old(Tellings()), d)
    {
      var endpointsChanged := cfg.listen != newCfg.listen || cfg.statusListen != newCfg.statusListen;
      if Empty(d) && !d.settingsChanged && !endpointsChanged {
        Adopt(d, newCfg);
      } else {
        ApplySteps(d, newCfg, cut);
      }
    }

    /** The difference to the new configuration, which is a sound plan in a state that agrees. */
    method Plan(newCfg: Config) returns (d: Diff)
      requires Agree() && WellFormed(cfg) && WellFormed(newCfg)
      ensures IsDiff(cfg, newCfg, d) && Settles(Owners(), newCfg, d, live.Keys, Away())
      ensures ListsChanges(cfg, newCfg, d, live.Keys - (Away() + SentAway(d, live.Keys)))
      ensures Empty(d) && !d.settingsChanged ==>
                cfg.nodes == newCfg.nodes && cfg.ports == newCfg.ports && cfg.settings == newCfg.settings
      ensures Cut(items, d, newCfg, live.Keys) <= MayCut(items, cfg, newCfg, Away())
    {
      ghost var owners, away := Owners(), Away();
      assert Online() == live.Keys - away;
      d := DiffConfig(cfg, newCfg);
      PlanIsSound(cfg, newCfg, d, live.Keys, away, owners);
      CutsAreDue(items, cfg, newCfg, d, live.Keys, away);
      assert Owners() == owners && Away() == away;
    }

    /** The reload. It takes a state that agrees with the configuration to one that agrees with
        the new one, and cuts no connection but those its frame allows. */
    method ApplyReload(newCfg: Config) returns (d: Diff)
      requires Agree() && WellFormed(cfg) && WellFormed(newCfg)
      modifies this`cfg, this`items, live.Values
      modifies items.Values`accepting, MayCut(items, cfg, newCfg, Away())`conns
      ensures cfg == newCfg && IsDiff(old(cfg), newCfg, d) && Agree()
      ensures Placed(old(items), old(Away()), d) && Retold(old(Tellings()), d)
    {
      ghost var told, away := Tellings(), Away();
      d := Plan(newCfg);
      assert Agree() && Tellings() == told && Away() == away;
      ApplyDiff(d, newCfg, Cut(items, d, newCfg, live.Keys));
    }

    // --- Nodes coming and going ---

    /** A session told what its node is configured to be told, or null for an unknown node. */
    method NewSession(name: string) returns (s: Session?, ports: seq<nat>)
      requires WellFormed(cfg)
      ensures s == null <==> name !in cfg.nodes
      ensures s != null ==> fresh(s) && s.name == name && !s.Leaving() && NodeConfigOf(cfg, name) == Some(s.cfg)
      ensures s != null ==> s.queueTimeout == cfg.settings.queueTimeout && ToSet(ports) == OwnedPorts(cfg, name)
    {
      var nodeCfg := BuildNodeConfig(cfg, name);
      if nodeCfg == None {
        return null, [];
      }
      s := new Session(name, nodeCfg.value, cfg.settings.queueTimeout);
      ports := NodePorts(name);
    }

    /** PortsOf, as port numbers. */
    method NodePorts(name: string) returns (ports: seq<nat>)
      requires WellFormed(cfg)
      ensures ToSet(ports) == OwnedPorts(cfg, name)
    {
      var specs := PortsOf(cfg, name);
      ports := seq(|specs|, i requires 0 <= i < |specs| => specs[i].port);
      ListsOwned(cfg, name, specs, ports);
    }

    method Enter(s: Session)
      requires Wf() && s.name !in live && !s.Leaving()
      modifies this`live
      ensures Wf() && live == old(live)[s.name := s]
      ensures Online() == old(Online()) + {s.name} && Away() == old(Away())
      ensures Tellings() == old(Tellings())[s.name := Told(s.cfg, s.queueTimeout, s.pushes)]
    {
      live := live[s.name := s];
      assert Tellings() == old(Tellings())[s.name := Told(s.cfg, s.queueTimeout, s.pushes)];
    }

    /** Register: the session is in the registry. */
    method Register(s: Session)
      requires Wf() && SessionsAgree(cfg) && s.name !in live && !s.Leaving()
      requires NodeConfigOf(cfg, s.name) == Some(s.cfg) && s.queueTimeout == cfg.settings.queueTimeout
      modifies this`live
      ensures Wf() && SessionsAgree(cfg) && live == old(live)[s.name := s] && live.Keys == old(live).Keys + {s.name}
      ensures Online() == old(Online()) + {s.name} && Away() == old(Away())
    {
      OneMoreUpToDate(cfg, Tellings(), Online(), s.name, Told(s.cfg, s.queueTimeout, s.pushes));
      Enter(s);
    }

    /** StartNode: if the listeners are right but for this node, then starting its ports makes
        them right; a port still held by a leaving node is taken over. */
    method StartNode(name: string, ports: seq<nat>)
      requires Wf() && Accepting() && name in Online() && ToSet(ports) == OwnedPorts(cfg, name)
      requires Serving(Owners(), Away()) == Rebuilt(cfg, Online() - {name})
      requires forall p | p in cfg.ports :: cfg.ports[p].port == p
      modifies this`items, items.Values`accepting, items.Values`conns
      ensures ListenersAgree() && Owners() == Joined(cfg, old(Owners()), name)
    {
      ghost var owners, online, away := Owners(), Online(), Away();
      JoinedAgrees(cfg, online - {name}, away, owners, name);
      JoinedIsStarted(cfg, live.Keys, owners, name);
      assert online - {name} + {name} == online;
      StartAdded(ports);
      assert Online() == online && Away() == away && Owners() == Joined(cfg, owners, name);
    }

    /** Unregister, and Close. */
    method Unregister(s: Session)
      requires Wf() && SessionsAgree(cfg) && s.name in live && live[s.name] == s
      modifies this`live, s`closed
      ensures Wf() && SessionsAgree(cfg) && live == old(live) - {s.name} && s.closed
      ensures Online() == old(Online()) - {s.name} && Away() == old(Away()) - {s.name}
    {
      ghost var told := Tellings();
      live := live - {s.name};
      s.closed := true;
      assert Tellings() == told - {s.name};
    }

    /** Register, then StartNode. */
    method Join(s: Session, ports: seq<nat>)
      requires Agree() && s.name !in live && !s.Leaving() && forall p | p in cfg.ports :: cfg.ports[p].port == p
      requires NodeConfigOf(cfg, s.name) == Some(s.cfg) && s.queueTimeout == cfg.settings.queueTimeout
      requires ToSet(ports) == OwnedPorts(cfg, s.name)
      modifies this`live, this`items, items.Values`accepting, items.Values`conns
      ensures Agree() && live == old(live)[s.name := s] && Owners() == Joined(cfg, old(Owners()), s.name)
    {
      ghost var online := Online();
      Register(s);
      assert Online() - {s.name} == online;
      StartNode(s.name, ports);
    }

    /** Register, then Unregister and Close, as no welcome could be sent. */
    method Retreat(s: Session)
      requires Agree() && s.name !in live && !s.Leaving()
      requires NodeConfigOf(cfg, s.name) == Some(s.cfg) && s.queueTimeout == cfg.settings.queueTimeout
      modifies this`live, s`closed
      ensures Agree() && live == old(live) && s.closed
    {
      ghost var online, away := Online(), Away();
      Register(s);
      Unregister(s);
      assert live == old(live) && Online() == online && Away() == away;
    }

    /** Whether it joins depends on the welcome message. */
    method Admit(s: Session, ports: seq<nat>, welcomed: bool)
      requires Agree() && s.name !in live && !s.Leaving() && forall p | p in cfg.ports :: cfg.ports[p].port == p
      requires NodeConfigOf(cfg, s.name) == Some(s.cfg) && s.queueTimeout == cfg.settings.queueTimeout
      requires ToSet(ports) == OwnedPorts(cfg, s.name)
      modifies this`live, this`items, s`closed
      modifies (if welcomed then items.Values else {})`accepting, (if welcomed then items.Values else {})`conns
      ensures Agree() && live == (if welcomed then old(live)[s.name := s] else old(live))
      ensures !s.draining && s.closed == !welcomed
      ensures if welcomed then Owners() == Joined(cfg, old(Owners()), s.name) else items == old(items)
    {
      if welcomed {
        Join(s, ports);
      } else {
        Retreat(s);
      }
    }

    /** A node that authenticated: refused if the configuration lost it or its name is taken,
        else a session for it joins, unless its welcome message cannot be written. */
    method Connect(name: string, welcomed: bool) returns (outcome: Connected)
      requires Agree() && WellFormed(cfg)
      modifies this`live, this`items
      modifies (if welcomed then items.Values else {})`accepting, (if welcomed then items.Values else {})`conns
      ensures Agree()
      ensures outcome.Vanished? == (name !in cfg.nodes)
      ensures outcome.Busy? == (name in cfg.nodes && name in old(live))
      ensures outcome.WelcomeFailed? == (name in cfg.nodes && name !in old(live) && !welcomed)
      ensures live == if outcome.Joining? then old(live)[name := outcome.session] else old(live)
      ensures !outcome.Joining? ==> items == old(items)
      ensures outcome.Joining? ==> fresh(outcome.session) && !outcome.session.draining && !outcome.session.closed
      ensures outcome.Joining? ==> Owners() == Joined(cfg, old(Owners()), name)
    {
      var s, ports := NewSession(name);
      if s == null {
        return Vanished;
      }
      if name in live {
        return Busy;
      }
      Admit(s, ports, welcomed);
      outcome := if welcomed then Joining(s) else WelcomeFailed;
    }

    /** The end of a control channel: StopNode, Unregister, Close, in the session's goroutine. */
    method Disconnect(s: Session)
      requires Agree() && s.name in live && live[s.name] == s
      modifies this`live, this`items, s`closed
      modifies OwnedBy(items, {s.name})`accepting, OwnedBy(items, {s.name})`conns
      ensures Agree() && live == old(live) - {s.name} && s.closed
      ensures items == Others(old(items), {s.name})
      ensures forall l | l in OwnedBy(old(items), {s.name}) :: !l.accepting && l.conns == {}
    {
      ghost var online, away := Online() - {s.name}, Away() - {s.name};
      LeftAgrees(cfg, Online(), Away(), Owners(), s.name);
      OthersOwners(items, s.name);
      StopNode(s.name, false);
      assert Online() == old(Online()) && Away() == old(Away()) && SessionsAgree(cfg) == old(SessionsAgree(cfg));
      Unregister(s);
      assert Online() == online && Away() == away;
    }

    /** A session that is closed by its ping loop, its data channels or its peer is going away. */
    method CloseSession(s: Session)
      requires Agree() && s.name in live && live[s.name] == s
      modifies s`closed
      ensures Agree() && Away() == old(Away()) + {s.name}
    {
      ghost var online, away := Online(), Away();
      LeavingAgrees(cfg, online, away, Owners(), {s.name});
      s.closed := true;
      assert Online() == online - {s.name} && Away() == away + {s.name};
    }

    /** Closing a session that drains changes nothing about who is going away. */
    method CloseDrained(s: Session)
      requires s.draining
      modifies s`closed
      ensures s.closed && Online() == old(Online()) && Away() == old(Away())
      ensures SessionsAgree(cfg) == old(SessionsAgree(cfg))
    {
      s.closed := true;
      assert Tellings() == old(Tellings()) && Online() == old(Online());
    }

    /** The end of drainNode, in its own goroutine: stops the node's listeners by name, then
        closes the session it drained. If that session is gone by then and a new one is online
        under the name, the new one loses its listeners. */
    method FinishDrain(s: Session)
      requires Agree() && s.draining
      modifies this`items, s`closed
      modifies OwnedBy(items, {s.name})`accepting, OwnedBy(items, {s.name})`conns
      ensures Wf() && Accepting() && SessionsAgree(cfg) && s.closed
      ensures Online() == old(Online()) && items == Others(old(items), {s.name})
      ensures ListenersAgree() <==> s.name !in Online() || OwnedPorts(cfg, s.name) == {}
    {
      ghost var was, online, away := items, Online(), Away();
      DroppingBreaks(cfg, online, away, Owners(), s.name);
      OthersOwners(was, s.name);
      StopNode(s.name, false);
      assert Online() == online && Away() == away && SessionsAgree(cfg) == old(SessionsAgree(cfg));
      CloseDrained(s);
      assert Online() == online && Away() == away;
    }
  }

  // --- What agreement means ---

  /** An online session of a server that agrees holds its node's channels and ports, and the
      configured settings. */
  lemma SessionsAreTold(s: Server, n: string)
    requires s.Agree() && n in s.live && !s.live[n].draining && !s.live[n].closed
    ensures n in s.cfg.nodes && s.live[n].cfg.channels == s.cfg.nodes[n].channels
    ensures s.live[n].cfg.heartbeat == s.cfg.settings.heartbeat
    ensures s.live[n].cfg.dialTimeout == s.cfg.settings.dialTimeout
    ensures s.live[n].cfg.maxStreams == s.cfg.settings.maxStreams
    ensures s.live[n].queueTimeout == s.cfg.settings.queueTimeout
    ensures HasPortsOf(s.cfg, n, s.live[n].cfg.ports)
  {
    assert n in s.Online() && s.Tellings()[n].cfg == s.live[n].cfg;
    ToldItsOwn(s.cfg, n, s.live[n].cfg);
  }

  /** And its listeners: every configured port of an online node has one that accepts, for that
      node; and every listener is of a node going away or of the configured owner, online. */
  lemma PortsAreServed(s: Server, p: nat)
    requires s.Agree()
    ensures p in s.cfg.ports && s.cfg.ports[p].node in s.live
            && !s.live[s.cfg.ports[p].node].draining && !s.live[s.cfg.ports[p].node].closed ==>
              p in s.items && s.items[p].port == p && s.items[p].node == s.cfg.ports[p].node && s.items[p].accepting
    ensures p in s.items ==> s.items[p].accepting
    ensures p in s.items && !(s.items[p].node in s.live
                              && (s.live[s.items[p].node].draining || s.live[s.items[p].node].closed)) ==>
              p in s.cfg.ports && s.cfg.ports[p].node == s.items[p].node && s.items[p].node in s.live
  {
    var served, wanted := Serving(s.Owners(), s.Away()), Rebuilt(s.cfg, s.Online());
    assert p in served <==> p in wanted;
    if p in s.items {
      assert s.items[p].node !in s.Away() ==> p in served && served[p] == s.items[p].node;
    }
  }

  // --- What a reload means for one port and for one session ---

  /** A port that an online node keeps has the very same listener; one that is not there any
      more has stopped accepting. */
  lemma StayersKeepListeners(s: Server, prev: Config, d: Diff, was: map<nat, PortListener>, away: set<string>)
    requires s.Placed(was, away, d) && IsDiff(prev, s.cfg, d) && forall p | p in was :: was[p].port == p
    requires Serving(OwnersOf(was), away) == Rebuilt(prev, s.live.Keys - away)
    ensures forall p |
              p in was && was[p].node in s.Online() && p in s.cfg.ports && s.cfg.ports[p].node == was[p].node ::
              p in s.items && s.items[p] == was[p]
    ensures forall p | p in was && !(p in s.items && s.items[p] == was[p]) :: !was[p].accepting
  {
    var up := Startable(s.cfg, s.live.Keys, ToSet(d.addedPorts));
    var kept := Keeping(was, d, s.live.Keys);
    forall p | p in was && was[p].node in s.Online() && p in s.cfg.ports && s.cfg.ports[p].node == was[p].node
      ensures p in s.items && s.items[p] == was[p]
    {
      assert was[p].node !in s.Away();
      assert p in Serving(OwnersOf(was), away);
      assert p in Rebuilt(prev, s.live.Keys - away);
      assert !Moved(prev, s.cfg, p) && !Moved(s.cfg, prev, p);
      assert p in kept && p !in up;
    }
    forall p | p in was && !(p in s.items && s.items[p] == was[p])
      ensures !was[p].accepting
    {
      if p in kept {
        assert p in up && up[p] != was[p].node;
        assert kept[p] in kept.Values && kept[p] in Displaced(kept, up);
      }
    }
  }

  /** A session is told anew, once, exactly when its node is configured and a setting or its own
      configuration changed; otherwise nothing of what it was told changes. */
  lemma ToldWhenChanged(s: Server, prev: Config, d: Diff, told: map<string, Told>)
    requires s.Retold(told, d) && IsDiff(prev, s.cfg, d) && told.Keys == s.live.Keys
    ensures forall n | n in s.live ::
              if n in s.cfg.nodes && (prev.settings != s.cfg.settings || NeedsPush(prev, s.cfg, n))
              then s.live[n].pushes == told[n].pushes + 1 && NodeConfigOf(s.cfg, n) == Some(s.live[n].cfg)
              else Told(s.live[n].cfg, s.live[n].queueTimeout, s.live[n].pushes) == told[n]
  {
    forall n | n in s.live
      ensures Told(s.live[n].cfg, s.live[n].queueTimeout, s.live[n].pushes) == s.Tellings()[n]
      ensures n in d.changedNodes <==> NeedsPush(prev, s.cfg, n)
    {
    }
  }

  datatype Connected = Joining(session: Session) | Vanished | Busy | WelcomeFailed

  lemma JoinedIsStarted(c: Config, names: set<string>, at: map<nat, string>, n: string)
    requires n in names
    ensures Joined(c, at, n) == at + Startable(c, names, OwnedPorts(c, n))
  {
  }

  lemma ListsOwned(c: Config, name: string, specs: seq<PortSpec>, ports: seq<nat>)
    requires forall s :: s in specs <==> s.port in c.ports && c.ports[s.port] == s && s.node == name
    requires forall p | p in c.ports :: c.ports[p].port == p
    requires |ports| == |specs| && forall i | 0 <= i < |specs| :: ports[i] == specs[i].port
    ensures ToSet(ports) == OwnedPorts(c, name)
  {
    forall p | p in OwnedPorts(c, name)
      ensures p in ports
    {
      assert c.ports[p] in specs;
      var i :| 0 <= i < |specs| && specs[i] == c.ports[p];
      assert ports[i] == p;
    }
    forall p | p in ports
      ensures p in OwnedPorts(c, name)
    {
      var i :| 0 <= i < |ports| && ports[i] == p;
      assert specs[i] in specs;
    }
  }

  /** The port owners end where a rebuild would. */
  ghost predicate Settles(at: map<nat, string>, cur: Config, d: Diff, live: set<string>, away: set<string>) {
    var away' := away + SentAway(d, live);
    Serving(Reloaded(at, cur, d, live), away') == Rebuilt(cur, live - away')
  }

  /** A difference computed from the two configurations makes a sound plan. */
  lemma PlanIsSound(prev: Config, cur: Config, d: Diff, live: set<string>, away: set<string>, at: map<nat, string>)
    requires WellFormed(prev) && WellFormed(cur) && IsDiff(prev, cur, d) && away <= live
    requires Serving(at, away) == Rebuilt(prev, live - away)
    ensures Settles(at, cur, d, live, away) && ListsChanges(prev, cur, d, live - (away + SentAway(d, live)))
    ensures Empty(d) && !d.settingsChanged ==>
              prev.nodes == cur.nodes && prev.ports == cur.ports && prev.settings == cur.settings
  {
    ReloadAgrees(prev, cur, d, live, away, at);
    EmptyMeansSame(prev, cur, d);
    forall n | n in live - SentAway(d, live) && n in prev.nodes
      ensures n in cur.nodes && (n !in d.changedNodes ==> NodeConfigOf(prev, n) == NodeConfigOf(cur, n))
    {
      assert !KeyChanged(prev, cur, n);
      assert n in d.changedNodes <==> NeedsPush(prev, cur, n);
    }
  }

  lemma NothingToMove(items: map<nat, PortListener>, c: Config, d: Diff, live: set<string>)
    requires Empty(d)
    ensures Keeping(items, d, live) == items && SentAway(d, live) == {}
            && Startable(c, live, ToSet(d.addedPorts)) == map[]
  {
  }

  lemma SameIsRebuilt(prev: Config, cur: Config, online: set<string>, told: map<string, Told>)
    requires prev.nodes == cur.nodes && prev.ports == cur.ports && prev.settings == cur.settings
    ensures Rebuilt(cur, online) == Rebuilt(prev, online)
    ensures UpToDate(prev, told, online) ==> UpToDate(cur, told, online)
  {
    forall n ensures NodeConfigOf(prev, n) == NodeConfigOf(cur, n) {
      assert PortMap(prev, n) == PortMap(cur, n);
    }
  }

  /** The listeners of nodes under a new key and of nodes already going away. */
  ghost function MayCut(items: map<nat, PortListener>, prev: Config, cur: Config,
                        away: set<string>): set<PortListener> {
    set l | l in items.Values && (KeyChanged(prev, cur, l.node) || l.node in away)
  }

  /** Told of the fields: a reload to cur may cut the connections of a listener exactly if its node
      is in both configurations under different keys, or its session drains or is closed. */
  lemma MayCutMeans(s: Server, cur: Config, l: PortListener)
    requires l in s.items.Values
    ensures l in MayCut(s.items, s.cfg, cur, s.Away()) <==>
              || (l.node in s.cfg.nodes && l.node in cur.nodes && s.cfg.nodes[l.node].key != cur.nodes[l.node].key)
              || (l.node in s.live && (s.live[l.node].draining || s.live[l.node].closed))
  {
  }

  /** From listeners that agree, a reload cuts only those. */
  lemma CutsAreDue(items: map<nat, PortListener>, prev: Config, cur: Config, d: Diff, live: set<string>,
                   away: set<string>)
    requires (forall p | p in items :: items[p].port == p) && IsDiff(prev, cur, d) && away <= live
    requires Serving(OwnersOf(items), away) == Rebuilt(prev, live - away)
    ensures Cut(items, d, cur, live) <= MayCut(items, prev, cur, away)
  {
    var kept := Keeping(items, d, live);
    AtPort(kept);
    forall l | l in Displaced(kept, Startable(cur, live, ToSet(d.addedPorts)))
      ensures l in items.Values && l.node in away
    {
      assert items[l.port] == l;
      if l.node !in away {
        assert l.port in Serving(OwnersOf(items), away);
        assert l.port in Rebuilt(prev, live - away);
        assert Moved(prev, cur, l.port);
      }
    }
  }

  lemma NamedBy(live: map<string, Session>, s: Session)
    requires s in live.Values && forall n | n in live :: live[n].name == n
    ensures s.name in live && live[s.name] == s
  {
    var n := KeyOf(live, s);
  }

  lemma PlusAssociates<K, V>(a: map<K, V>, b: map<K, V>, c: map<K, V>)
    ensures (a + b) + c == a + (b + c)
  {
  }

  lemma ToSetStep<T>(q: seq<T>, i: nat)
    requires i < |q|
    ensures ToSet(q[..i + 1]) == ToSet(q[..i]) + {q[i]}
  {
    assert q[..i + 1] == q[..i] + [q[i]];
  }
}
