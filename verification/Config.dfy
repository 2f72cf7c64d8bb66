/** The server's configuration: what Load keeps of a decoded file, and the views of it that
    nodes, listeners and authentication use. */
module Config {
  import opened Basics

  const DEFAULT_HEARTBEAT := 15_000_000_000
  const DEFAULT_DIAL_TIMEOUT := 10_000_000_000
  const DEFAULT_QUEUE_TIMEOUT := 5_000_000_000
  const DEFAULT_MAX_STREAMS := 256
  const DEFAULT_CHANNELS := 4

  // --- Decimal numbers, as strconv.Itoa writes them ---

  function Digit(d: nat): char
    requires d < 10
  {
    ['0', '1', '2', '3', '4', '5', '6', '7', '8', '9'][d]
  }

  function Itoa(n: nat): string {
    if n < 10 then [Digit(n)] else Itoa(n / 10) + [Digit(n % 10)]
  }

  function Number(s: string): int {
    if s == [] then 0 else 10 * Number(s[..|s| - 1]) + (s[|s| - 1] as int - '0' as int)
  }

  lemma {:induction false} NumberOfItoa(n: nat)
    ensures Number(Itoa(n)) == n
    decreases n
  {
    if n < 10 {
      assert [Digit(n)][..0] == [];
    } else {
      NumberOfItoa(n / 10);
      assert Itoa(n)[..|Itoa(n)| - 1] == Itoa(n / 10);
    }
  }

  lemma ItoaInjective()
    ensures forall a: nat, b: nat :: Itoa(a) == Itoa(b) ==> a == b
  {
    forall a: nat, b: nat | Itoa(a) == Itoa(b)
      ensures a == b
    {
      NumberOfItoa(a);
      NumberOfItoa(b);
    }
  }

  // --- A decoded file ---

  /** What net.SplitHostPort and strconv.Atoi make of a remote; None where they fail. */
  datatype HostPort = HostPort(host: string, port: Option<int>)

  datatype Remote = Remote(text: string, parts: Option<HostPort>)

  /** A node entry: whether its value decodes, and what it decodes to. */
  datatype RawNode = RawNode(name: string, decodes: bool, key: string, channels: Option<int>)

  /** A port entry; `number` is the key as Atoi reads it. */
  datatype RawPort = RawPort(number: Option<int>, decodes: bool, node: string, remote: Remote)

  /** Durations are None when empty or unparsable; the endpoint ports are what portOf finds. */
  datatype RawFile = RawFile(
    listen: string, statusListen: string,
    listenPort: Option<int>, statusPort: Option<int>,
    heartbeat: Option<int>, dialTimeout: Option<int>, queueTimeout: Option<int>, maxStreams: int,
    nodes: seq<RawNode>, ports: seq<RawPort>)

  datatype Settings = Settings(heartbeat: int, dialTimeout: int, queueTimeout: int, maxStreams: int)

  datatype NodeSpec = NodeSpec(name: string, key: string, channels: int)

  datatype PortSpec = PortSpec(port: nat, node: string, remote: string)

  datatype Config = Config(
    listen: string, statusListen: string, settings: Settings,
    nodes: map<string, NodeSpec>, nodeOrder: seq<string>,
    ports: map<nat, PortSpec>, portOrder: seq<nat>)

  /** What every loaded configuration satisfies. */
  ghost predicate WellFormed(c: Config) {
    && c.listen != ""
    && Distinct(c.nodeOrder) && (forall n :: n in c.nodeOrder <==> n in c.nodes)
    && Distinct(c.portOrder) && (forall p :: p in c.portOrder <==> p in c.ports)
    && (forall n | n in c.nodes :: c.nodes[n].name == n && c.nodes[n].key != "" && c.nodes[n].channels >= 1)
    && (forall m, n | m in c.nodes && n in c.nodes && c.nodes[m].key == c.nodes[n].key :: m == n)
    && (forall p | p in c.ports ::
          1 <= p <= 65535 && c.ports[p].port == p && c.ports[p].node in c.nodes && c.ports[p].remote != "")
    && c.settings.heartbeat > 0 && c.settings.dialTimeout > 0 && c.settings.queueTimeout > 0
    && c.settings.maxStreams >= 1
  }

  function DurationOr(d: Option<int>, default: int): int {
    if d.Some? && d.value > 0 then d.value else default
  }

  function SettingsOf(raw: RawFile): Settings {
    Settings(DurationOr(raw.heartbeat, DEFAULT_HEARTBEAT),
             DurationOr(raw.dialTimeout, DEFAULT_DIAL_TIMEOUT),
             DurationOr(raw.queueTimeout, DEFAULT_QUEUE_TIMEOUT),
             if raw.maxStreams < 1 then DEFAULT_MAX_STREAMS else raw.maxStreams)
  }

  function ChannelsOf(e: RawNode): int {
    if e.channels.Some? && e.channels.value >= 1 then e.channels.value else DEFAULT_CHANNELS
  }

  predicate ValidRemote(r: Remote) {
    && r.text != "" && r.parts.Some? && r.parts.value.host != ""
    && r.parts.value.port.Some? && 1 <= r.parts.value.port.value <= 65535
  }

  // --- Which entries survive ---

  /** A node entry survives if it is valid on its own and no earlier surviving entry has its
      name or its key. */
  ghost predicate NodeSurvives(es: seq<RawNode>, i: nat)
    requires i < |es|
    decreases i
  {
    && es[i].decodes && es[i].key != ""
    && forall j | 0 <= j < i && NodeSurvives(es, j) :: es[j].name != es[i].name && es[j].key != es[i].key
  }

  ghost predicate IsReserved(raw: RawFile, p: int) {
    raw.listenPort == Some(p) || raw.statusPort == Some(p)
  }

  /** Valid on its own: a port number in range that no endpoint uses, a surviving node and a
      usable remote. */
  ghost predicate PortValid(raw: RawFile, e: RawPort) {
    && e.number.Some? && 1 <= e.number.value <= 65535 && !IsReserved(raw, e.number.value)
    && e.decodes && ValidRemote(e.remote)
    && exists i :: 0 <= i < |raw.nodes| && NodeSurvives(raw.nodes, i) && raw.nodes[i].name == e.node
  }

  /** A port entry survives if it is valid on its own and no earlier surviving entry has its
      number. */
  ghost predicate PortSurvives(raw: RawFile, i: nat)
    requires i < |raw.ports|
    decreases i
  {
    && PortValid(raw, raw.ports[i])
    && forall j | 0 <= j < i && PortSurvives(raw, j) :: raw.ports[j].number != raw.ports[i].number
  }

  // --- The validation loops ---

  ghost function NodeSurvivors(es: seq<RawNode>, n: nat): set<nat>
    requires n <= |es|
  {
    set i: nat | i < n && NodeSurvives(es, i)
  }

  lemma NodeSurvivorsStep(es: seq<RawNode>, n: nat)
    requires n < |es|
    ensures NodeSurvivors(es, n + 1) == NodeSurvivors(es, n) + if NodeSurvives(es, n) then {n} else {}
    ensures NodeSurvives(es, n) <==>
              && es[n].decodes && es[n].key != ""
              && forall j | j in NodeSurvivors(es, n) :: es[j].name != es[n].name && es[j].key != es[n].key
  {
    assert forall j: nat | j < n && NodeSurvives(es, j) :: j in NodeSurvivors(es, n);
  }

  ghost predicate InRange(alive: set<nat>, n: nat) { forall i | i in alive :: i < n }

  /** nodes and order hold exactly the entries in alive. */
  ghost predicate NodesKept(es: seq<RawNode>, alive: set<nat>, nodes: map<string, NodeSpec>, order: seq<string>)
    requires InRange(alive, |es|)
  {
    && Distinct(order) && (forall name :: name in order <==> name in nodes)
    && (forall i | i in alive ::
          es[i].name in nodes && nodes[es[i].name] == NodeSpec(es[i].name, es[i].key, ChannelsOf(es[i])))
    && (forall name | name in nodes :: exists i :: i in alive && es[i].name == name)
  }

  /** keyOwner knows each kept key, by the name of the node that has it. */
  ghost predicate KeysOwned(nodes: map<string, NodeSpec>, keyOwner: map<string, string>) {
    && (forall name | name in nodes :: nodes[name].key in keyOwner)
    && (forall k | k in keyOwner :: keyOwner[k] in nodes && nodes[keyOwner[k]].key == k)
  }

  lemma KeepNode(es: seq<RawNode>, alive: set<nat>, n: nat, nodes: map<string, NodeSpec>, order: seq<string>)
    requires n < |es| && InRange(alive, n) && NodesKept(es, alive, nodes, order) && es[n].name !in nodes
    ensures NodesKept(es, alive + {n}, nodes[es[n].name := NodeSpec(es[n].name, es[n].key, ChannelsOf(es[n]))],
                      order + [es[n].name])
  {
    AppendDistinct(order, es[n].name);
    forall name | name in nodes || name == es[n].name
      ensures exists i :: i in alive + {n} && es[i].name == name
    {
      if name in nodes {
        var i :| i in alive && es[i].name == name;
        assert i in alive + {n};
      } else {
        assert n in alive + {n};
      }
    }
  }

  ghost function SurvivorNames(es: seq<RawNode>, n: nat): seq<string>
    requires n <= |es|
  {
    if n == 0 then [] else SurvivorNames(es, n - 1) + if NodeSurvives(es, n - 1) then [es[n - 1].name] else []
  }

  /** What the loop tests decides survival. */
  lemma NodeTest(es: seq<RawNode>, n: nat, nodes: map<string, NodeSpec>, order: seq<string>,
                 keyOwner: map<string, string>)
    requires n < |es| && NodesKept(es, NodeSurvivors(es, n), nodes, order) && KeysOwned(nodes, keyOwner)
    ensures NodeSurvives(es, n) <==>
              es[n].decodes && es[n].name !in nodes && es[n].key != "" && es[n].key !in keyOwner
    ensures NodeSurvivors(es, n + 1) == if NodeSurvives(es, n) then NodeSurvivors(es, n) + {n} else NodeSurvivors(es, n)
    ensures SurvivorNames(es, n + 1) == SurvivorNames(es, n) + if NodeSurvives(es, n) then [es[n].name] else []
  {
    var alive := NodeSurvivors(es, n);
    NodeSurvivorsStep(es, n);
    if es[n].name in nodes {
      var i :| i in alive && es[i].name == es[n].name;
    } else if es[n].key in keyOwner {
      var i :| i in alive && es[i].name == keyOwner[es[n].key];
    }
  }

  /** The node loop keeps exactly the survivors, in document order. */
  method LoadNodes(es: seq<RawNode>) returns (nodes: map<string, NodeSpec>, order: seq<string>)
    ensures NodesKept(es, NodeSurvivors(es, |es|), nodes, order)
    ensures order == SurvivorNames(es, |es|)
  {
    nodes, order := map[], [];
    var keyOwner: map<string, string> := map[];
    for n := 0 to |es|
      invariant NodesKept(es, NodeSurvivors(es, n), nodes, order) && order == SurvivorNames(es, n)
      invariant KeysOwned(nodes, keyOwner)
    {
      var e := es[n];
      NodeTest(es, n, nodes, order, keyOwner);
      if !e.decodes || e.name in nodes || e.key == "" || e.key in keyOwner {
        continue;
      }
      KeepNode(es, NodeSurvivors(es, n), n, nodes, order);
      keyOwner := keyOwner[e.key := e.name];
      nodes := nodes[e.name := NodeSpec(e.name, e.key, ChannelsOf(e))];
      order := order + [e.name];
    }
  }

  ghost function PortSurvivors(raw: RawFile, n: nat): set<nat>
    requires n <= |raw.ports|
  {
    set i: nat | i < n && PortSurvives(raw, i)
  }

  lemma PortSurvivorsStep(raw: RawFile, n: nat)
    requires n < |raw.ports|
    ensures PortSurvivors(raw, n + 1) == PortSurvivors(raw, n) + if PortSurvives(raw, n) then {n} else {}
    ensures PortSurvives(raw, n) <==>
              && PortValid(raw, raw.ports[n])
              && forall j | j in PortSurvivors(raw, n) :: raw.ports[j].number != raw.ports[n].number
    ensures forall j | j in PortSurvivors(raw, n) :: PortValid(raw, raw.ports[j])
  {
    assert forall j: nat | j < n && PortSurvives(raw, j) :: j in PortSurvivors(raw, n);
  }

  /** ports and order hold exactly the entries in alive. */
  ghost predicate PortsKept(es: seq<RawPort>, alive: set<nat>, ports: map<nat, PortSpec>, order: seq<nat>)
    requires InRange(alive, |es|)
  {
    && Distinct(order) && (forall p :: p in order <==> p in ports)
    && (forall i | i in alive ::
          && es[i].number.Some? && es[i].number.value >= 0 && es[i].number.value in ports
          && ports[es[i].number.value] == PortSpec(es[i].number.value, es[i].node, es[i].remote.text))
    && (forall p | p in ports :: exists i :: i in alive && es[i].number == Some(p))
  }

  lemma KeepPort(es: seq<RawPort>, alive: set<nat>, n: nat, p: nat, ports: map<nat, PortSpec>, order: seq<nat>)
    requires n < |es| && InRange(alive, n) && PortsKept(es, alive, ports, order)
    requires es[n].number == Some(p) && p !in ports
    ensures PortsKept(es, alive + {n}, ports[p := PortSpec(p, es[n].node, es[n].remote.text)], order + [p])
  {
    AppendDistinct(order, p);
    forall q | q in ports || q == p
      ensures exists i :: i in alive + {n} && es[i].number == Some(q)
    {
      if q in ports {
        var i :| i in alive && es[i].number == Some(q);
        assert i in alive + {n};
      } else {
        assert n in alive + {n};
      }
    }
  }

  /** A node name is in the kept map exactly if a surviving entry declares it. */
  lemma KeptName(es: seq<RawNode>, nodes: map<string, NodeSpec>, order: seq<string>, name: string)
    requires NodesKept(es, NodeSurvivors(es, |es|), nodes, order)
    ensures name in nodes <==> exists i :: 0 <= i < |es| && NodeSurvives(es, i) && es[i].name == name
  {
    if name in nodes {
      var i :| i in NodeSurvivors(es, |es|) && es[i].name == name;
    }
    if i :| 0 <= i < |es| && NodeSurvives(es, i) && es[i].name == name {
      assert i in NodeSurvivors(es, |es|);
    }
  }

  ghost function SurvivorPorts(raw: RawFile, n: nat): seq<int>
    requires n <= |raw.ports|
  {
    if n == 0 then []
    else SurvivorPorts(raw, n - 1) + if PortSurvives(raw, n - 1) then [raw.ports[n - 1].number.value] else []
  }

  /** What the loop tests decides survival. */
  lemma PortTest(raw: RawFile, n: nat, nodes: map<string, NodeSpec>, order: seq<string>,
                 ports: map<nat, PortSpec>, portOrder: seq<nat>)
    requires NodesKept(raw.nodes, NodeSurvivors(raw.nodes, |raw.nodes|), nodes, order)
    requires n < |raw.ports| && PortsKept(raw.ports, PortSurvivors(raw, n), ports, portOrder)
    ensures var e := raw.ports[n];
            PortSurvives(raw, n) <==>
              && e.number.Some? && 1 <= e.number.value <= 65535 && !IsReserved(raw, e.number.value)
              && e.number.value !in ports && e.decodes && e.node in nodes && ValidRemote(e.remote)
    ensures PortSurvivors(raw, n + 1) == PortSurvivors(raw, n) + if PortSurvives(raw, n) then {n} else {}
    ensures SurvivorPorts(raw, n + 1)
         == SurvivorPorts(raw, n) + if PortSurvives(raw, n) then [raw.ports[n].number.value] else []
  {
    var e := raw.ports[n];
    PortSurvivorsStep(raw, n);
    KeptName(raw.nodes, nodes, order, e.node);
    if e.number.Some? && e.number.value >= 0 && e.number.value in ports {
      var i :| i in PortSurvivors(raw, n) && raw.ports[i].number == Some(e.number.value);
    }
  }

  /** The first n port entries have been dealt with. */
  ghost predicate PortsLoaded(raw: RawFile, n: nat, ports: map<nat, PortSpec>, portOrder: seq<nat>)
    requires n <= |raw.ports|
  {
    PortsKept(raw.ports, PortSurvivors(raw, n), ports, portOrder) && portOrder == SurvivorPorts(raw, n)
  }

  /** One round of the loop. */
  lemma PortRound(raw: RawFile, n: nat, nodes: map<string, NodeSpec>, order: seq<string>,
                  ports: map<nat, PortSpec>, portOrder: seq<nat>)
    requires NodesKept(raw.nodes, NodeSurvivors(raw.nodes, |raw.nodes|), nodes, order)
    requires n < |raw.ports| && PortsLoaded(raw, n, ports, portOrder)
    ensures var e := raw.ports[n];
            if && e.number.Some? && 1 <= e.number.value <= 65535 && !IsReserved(raw, e.number.value)
               && e.number.value !in ports && e.decodes && e.node in nodes && ValidRemote(e.remote)
            then PortsLoaded(raw, n + 1, ports[e.number.value := PortSpec(e.number.value, e.node, e.remote.text)],
                             portOrder + [e.number.value])
            else PortsLoaded(raw, n + 1, ports, portOrder)
  {
    PortTest(raw, n, nodes, order, ports, portOrder);
    if PortSurvives(raw, n) {
      KeepPort(raw.ports, PortSurvivors(raw, n), n, raw.ports[n].number.value, ports, portOrder);
    }
  }

  /** The port loop keeps exactly the survivors, in document order. */
  method LoadPorts(raw: RawFile, nodes: map<string, NodeSpec>, ghost order: seq<string>)
    returns (ports: map<nat, PortSpec>, portOrder: seq<nat>)
    requires NodesKept(raw.nodes, NodeSurvivors(raw.nodes, |raw.nodes|), nodes, order)
    ensures PortsKept(raw.ports, PortSurvivors(raw, |raw.ports|), ports, portOrder)
    ensures portOrder == SurvivorPorts(raw, |raw.ports|)
  {
    ports, portOrder := map[], [];
    for n := 0 to |raw.ports|
      invariant PortsLoaded(raw, n, ports, portOrder)
    {
      var e := raw.ports[n];
      PortRound(raw, n, nodes, order, ports, portOrder);
      if e.number == None || e.number.value < 1 || e.number.value > 65535 {
        continue;
      }
      var port: nat := e.number.value;
      if raw.listenPort == Some(port) || raw.statusPort == Some(port) {
        continue;
      }
      if port in ports || !e.decodes || e.node !in nodes || !ValidRemote(e.remote) {
        continue;
      }
      ports := ports[port := PortSpec(port, e.node, e.remote.text)];
      portOrder := portOrder + [port];
    }
  }

  /** Loading keeps exactly the entries that survive; only a missing `listen` is an error. */
  method Load(raw: RawFile) returns (cfg: Option<Config>)
    ensures cfg == None <==> raw.listen == ""
    ensures cfg.Some? ==>
              && WellFormed(cfg.value)
              && cfg.value.listen == raw.listen && cfg.value.statusListen == raw.statusListen
              && cfg.value.settings == SettingsOf(raw)
              && NodesKept(raw.nodes, NodeSurvivors(raw.nodes, |raw.nodes|), cfg.value.nodes, cfg.value.nodeOrder)
              && PortsKept(raw.ports, PortSurvivors(raw, |raw.ports|), cfg.value.ports, cfg.value.portOrder)
              && cfg.value.nodeOrder == SurvivorNames(raw.nodes, |raw.nodes|)
              && cfg.value.portOrder == SurvivorPorts(raw, |raw.ports|)
  {
    if raw.listen == "" {
      return None;
    }
    var nodes, order := LoadNodes(raw.nodes);
    var ports, portOrder := LoadPorts(raw, nodes, order);
    var c := Config(raw.listen, raw.statusListen, SettingsOf(raw), nodes, order, ports, portOrder);
    LoadedIsWellFormed(raw, c);
    cfg := Some(c);
  }

  /** Each setting is the file's own, if it is a positive number, and else its own default: 15, 10
      and 5 seconds, and 256 streams. So is each node's number of channels, or else 4. */
  lemma SettingsOrDefaults(raw: RawFile, e: RawNode)
    ensures var s := SettingsOf(raw);
            && s.heartbeat
               == (if raw.heartbeat.Some? && raw.heartbeat.value > 0 then raw.heartbeat.value else 15_000_000_000)
            && s.dialTimeout
               == (if raw.dialTimeout.Some? && raw.dialTimeout.value > 0 then raw.dialTimeout.value else 10_000_000_000)
            && s.queueTimeout
               == (if raw.queueTimeout.Some? && raw.queueTimeout.value > 0 then raw.queueTimeout.value
                   else 5_000_000_000)
            && s.maxStreams == (if raw.maxStreams > 0 then raw.maxStreams else 256)
    ensures ChannelsOf(e) == if e.channels.Some? && e.channels.value > 0 then e.channels.value else 4
  {
  }

  /** Every node of a loaded configuration is some entry's, with its key and channels; and an entry
      that decodes and has a key is dropped only if its name or its key is taken, by a node whose
      entry comes first. */
  lemma NodesAreFirstCome(raw: RawFile, c: Config, i: nat)
    requires NodesKept(raw.nodes, NodeSurvivors(raw.nodes, |raw.nodes|), c.nodes, c.nodeOrder) && i < |raw.nodes|
    ensures forall n | n in c.nodes ::
              exists j :: 0 <= j < |raw.nodes| && raw.nodes[j].name == n && raw.nodes[j].decodes
                          && raw.nodes[j].key == c.nodes[n].key != "" && c.nodes[n].channels == ChannelsOf(raw.nodes[j])
    ensures raw.nodes[i].decodes && raw.nodes[i].key != "" ==>
              exists j :: 0 <= j <= i
                          && (raw.nodes[j].name == raw.nodes[i].name || raw.nodes[j].key == raw.nodes[i].key)
                          && raw.nodes[j].name in c.nodes && c.nodes[raw.nodes[j].name].key == raw.nodes[j].key
  {
    var es := raw.nodes;
    var alive := NodeSurvivors(es, |es|);
    forall n | n in c.nodes
      ensures exists j :: 0 <= j < |es| && es[j].name == n && es[j].decodes
                          && es[j].key == c.nodes[n].key != "" && c.nodes[n].channels == ChannelsOf(es[j])
    {
      var j :| j in alive && es[j].name == n;
      assert NodeSurvives(es, j);
    }
    if es[i].decodes && es[i].key != "" {
      var j: nat := i;
      if !NodeSurvives(es, i) {
        j :| j < i && NodeSurvives(es, j) && !(es[j].name != es[i].name && es[j].key != es[i].key);
      }
      assert j in alive;
    }
  }

  /** Among the first n entries, one that keeps the name x comes before one that keeps y. */
  ghost predicate KeptBefore(es: seq<RawNode>, n: nat, x: string, y: string)
    requires n <= |es|
  {
    exists a, b :: 0 <= a < b < n && NodeSurvives(es, a) && NodeSurvives(es, b) && es[a].name == x && es[b].name == y
  }

  ghost predicate KeptAmong(es: seq<RawNode>, n: nat, x: string)
    requires n <= |es|
  {
    exists a :: 0 <= a < n && NodeSurvives(es, a) && es[a].name == x
  }

  /** The node order is that of the entries the nodes come from. */
  lemma {:induction false} NodeOrderFollows(es: seq<RawNode>, n: nat)
    requires n <= |es|
    ensures forall x | x in SurvivorNames(es, n) :: KeptAmong(es, n, x)
    ensures forall i, j | 0 <= i < j < |SurvivorNames(es, n)| ::
              KeptBefore(es, n, SurvivorNames(es, n)[i], SurvivorNames(es, n)[j])
    decreases n
  {
    if n > 0 {
      NodeOrderFollows(es, n - 1);
      var front, order := SurvivorNames(es, n - 1), SurvivorNames(es, n);
      forall i | 0 <= i < |front|
        ensures KeptAmong(es, n, front[i])
        ensures NodeSurvives(es, n - 1) ==> KeptBefore(es, n, front[i], es[n - 1].name)
      {
        assert KeptAmong(es, n - 1, front[i]);
        var a :| 0 <= a < n - 1 && NodeSurvives(es, a) && es[a].name == front[i];
      }
      forall i, j | 0 <= i < j < |front|
        ensures KeptBefore(es, n, front[i], front[j])
      {
        assert KeptBefore(es, n - 1, front[i], front[j]);
      }
      assert order == front || (NodeSurvives(es, n - 1) && order == front + [es[n - 1].name]);
    }
  }

  /** The same for ports. */
  ghost predicate PortKeptBefore(raw: RawFile, n: nat, p: int, q: int)
    requires n <= |raw.ports|
  {
    exists a, b :: 0 <= a < b < n && PortSurvives(raw, a) && PortSurvives(raw, b)
                   && raw.ports[a].number == Some(p) && raw.ports[b].number == Some(q)
  }

  ghost predicate PortKeptAmong(raw: RawFile, n: nat, p: int)
    requires n <= |raw.ports|
  {
    exists a :: 0 <= a < n && PortSurvives(raw, a) && raw.ports[a].number == Some(p)
  }

  /** The port order is that of the entries the ports come from. */
  lemma {:induction false} PortOrderFollows(raw: RawFile, n: nat)
    requires n <= |raw.ports|
    ensures forall p | p in SurvivorPorts(raw, n) :: PortKeptAmong(raw, n, p)
    ensures forall i, j | 0 <= i < j < |SurvivorPorts(raw, n)| ::
              PortKeptBefore(raw, n, SurvivorPorts(raw, n)[i], SurvivorPorts(raw, n)[j])
    decreases n
  {
    if n > 0 {
      PortOrderFollows(raw, n - 1);
      var front, order, last := SurvivorPorts(raw, n - 1), SurvivorPorts(raw, n), raw.ports[n - 1];
      forall i | 0 <= i < |front|
        ensures PortKeptAmong(raw, n, front[i])
        ensures PortSurvives(raw, n - 1) ==> PortKeptBefore(raw, n, front[i], last.number.value)
      {
        assert PortKeptAmong(raw, n - 1, front[i]);
        var a :| 0 <= a < n - 1 && PortSurvives(raw, a) && raw.ports[a].number == Some(front[i]);
      }
      forall i, j | 0 <= i < j < |front|
        ensures PortKeptBefore(raw, n, front[i], front[j])
      {
        assert PortKeptBefore(raw, n - 1, front[i], front[j]);
      }
      assert order == front || (PortSurvives(raw, n - 1) && order == front + [last.number.value]);
    }
  }

  /** A port is kept exactly if some entry for it is valid: in range, no endpoint's, owned by a kept
      node, and with a remote that has a host and a port in range. The first such entry counts. */
  lemma PortsAreFirstCome(raw: RawFile, c: Config, p: nat)
    requires NodesKept(raw.nodes, NodeSurvivors(raw.nodes, |raw.nodes|), c.nodes, c.nodeOrder)
    requires PortsKept(raw.ports, PortSurvivors(raw, |raw.ports|), c.ports, c.portOrder)
    ensures p in c.ports ==> exists i :: FirstFor(raw, c, p, i)
    ensures forall i :: FirstFor(raw, c, p, i) ==>
              p in c.ports && c.ports[p] == PortSpec(p, raw.ports[i].node, raw.ports[i].remote.text)
  {
    if p in c.ports {
      var i :| i in PortSurvivors(raw, |raw.ports|) && raw.ports[i].number == Some(p);
      FirstSurvives(raw, c, p, i);
    }
    forall i | FirstFor(raw, c, p, i)
      ensures p in c.ports && c.ports[p] == PortSpec(p, raw.ports[i].node, raw.ports[i].remote.text)
    {
      FirstSurvives(raw, c, p, i);
      assert i in PortSurvivors(raw, |raw.ports|);
    }
  }

  /** The i-th entry is one the port p can be kept from. */
  ghost predicate Fits(raw: RawFile, c: Config, p: nat, i: int) {
    && 0 <= i < |raw.ports| && raw.ports[i].number == Some(p) && 1 <= p <= 65535
    && raw.listenPort != Some(p) && raw.statusPort != Some(p)
    && raw.ports[i].decodes && raw.ports[i].node in c.nodes
    && raw.ports[i].remote.text != "" && raw.ports[i].remote.parts.Some?
    && raw.ports[i].remote.parts.value.host != "" && raw.ports[i].remote.parts.value.port.Some?
    && 1 <= raw.ports[i].remote.parts.value.port.value <= 65535
  }

  ghost predicate FirstFor(raw: RawFile, c: Config, p: nat, i: int) {
    Fits(raw, c, p, i) && forall j | 0 <= j < i :: !Fits(raw, c, p, j)
  }

  lemma FitsIsValid(raw: RawFile, c: Config, p: nat, i: nat)
    requires NodesKept(raw.nodes, NodeSurvivors(raw.nodes, |raw.nodes|), c.nodes, c.nodeOrder)
    requires i < |raw.ports| && raw.ports[i].number == Some(p)
    ensures Fits(raw, c, p, i) <==> PortValid(raw, raw.ports[i])
  {
    KeptName(raw.nodes, c.nodes, c.nodeOrder, raw.ports[i].node);
  }

  lemma {:induction false} FirstSurvives(raw: RawFile, c: Config, p: nat, i: nat)
    requires NodesKept(raw.nodes, NodeSurvivors(raw.nodes, |raw.nodes|), c.nodes, c.nodeOrder)
    requires i < |raw.ports| && raw.ports[i].number == Some(p)
    ensures PortSurvives(raw, i) <==> FirstFor(raw, c, p, i)
    decreases i
  {
    FitsIsValid(raw, c, p, i);
    forall j: nat | j < i && raw.ports[j].number == Some(p)
      ensures PortSurvives(raw, j) <==> FirstFor(raw, c, p, j)
      ensures Fits(raw, c, p, j) <==> PortValid(raw, raw.ports[j])
    {
      FirstSurvives(raw, c, p, j);
      FitsIsValid(raw, c, p, j);
    }
    if Fits(raw, c, p, i) && exists j :: 0 <= j < i && Fits(raw, c, p, j) {
      var j := LeastFitting(raw, c, p, i);
      assert FirstFor(raw, c, p, j);
    }
  }

  lemma {:induction false} LeastFitting(raw: RawFile, c: Config, p: nat, n: nat) returns (i: nat)
    requires exists j :: 0 <= j < n && Fits(raw, c, p, j)
    ensures i < n && FirstFor(raw, c, p, i)
    decreases n
  {
    if j :| 0 <= j < n - 1 && Fits(raw, c, p, j) {
      i := LeastFitting(raw, c, p, n - 1);
    } else {
      i := n - 1;
    }
  }

  /** The survivors of any file form a well-formed configuration: duplicate-free orders that
      match the maps, unique keys, and ports in range that belong to kept nodes. */
  lemma LoadedIsWellFormed(raw: RawFile, c: Config)
    requires raw.listen != "" && c.listen == raw.listen && c.settings == SettingsOf(raw)
    requires NodesKept(raw.nodes, NodeSurvivors(raw.nodes, |raw.nodes|), c.nodes, c.nodeOrder)
    requires PortsKept(raw.ports, PortSurvivors(raw, |raw.ports|), c.ports, c.portOrder)
    ensures WellFormed(c)
    ensures forall p | p in c.ports :: !IsReserved(raw, p)
  {
    KeptNodesUnique(raw.nodes, c.nodes, c.nodeOrder);
    forall p | p in c.ports
      ensures 1 <= p <= 65535 && c.ports[p].port == p && c.ports[p].node in c.nodes && c.ports[p].remote != ""
              && !IsReserved(raw, p)
    {
      var i :| i in PortSurvivors(raw, |raw.ports|) && raw.ports[i].number == Some(p);
      assert PortValid(raw, raw.ports[i]);
      KeptName(raw.nodes, c.nodes, c.nodeOrder, raw.ports[i].node);
    }
  }

  lemma SurvivorsDiffer(es: seq<RawNode>, i: nat, j: nat)
    requires i < |es| && j < |es| && NodeSurvives(es, i) && NodeSurvives(es, j)
    ensures i != j ==> es[i].name != es[j].name && es[i].key != es[j].key
  {
  }

  lemma KeptNodesUnique(es: seq<RawNode>, nodes: map<string, NodeSpec>, order: seq<string>)
    requires NodesKept(es, NodeSurvivors(es, |es|), nodes, order)
    ensures forall n | n in nodes :: nodes[n].name == n && nodes[n].key != "" && nodes[n].channels >= 1
    ensures forall m, n | m in nodes && n in nodes && nodes[m].key == nodes[n].key :: m == n
  {
    var alive := NodeSurvivors(es, |es|);
    forall n | n in nodes
      ensures nodes[n].name == n && nodes[n].key != "" && nodes[n].channels >= 1
    {
      var i :| i in alive && es[i].name == n;
    }
    forall m, n | m in nodes && n in nodes && nodes[m].key == nodes[n].key
      ensures m == n
    {
      var i :| i in alive && es[i].name == m;
      var j :| j in alive && es[j].name == n;
      SurvivorsDiffer(es, i, j);
    }
  }

  // --- Authentication ---

  datatype Auth = Accepted(spec: NodeSpec) | EmptyKey | UnknownNode | KeyMismatch | NoMatch

  /** Scans all nodes without stopping early; the first match wins. */
  method NodeByKey(c: Config, key: string) returns (found: Option<NodeSpec>)
    requires WellFormed(c)
    ensures found.Some? ==> key != "" && found.value.key == key
                             && found.value.name in c.nodes && c.nodes[found.value.name] == found.value
    ensures found == None ==> key == "" || forall n | n in c.nodes :: c.nodes[n].key != key
  {
    if key == "" {
      return None;
    }
    found := None;
    for i := 0 to |c.nodeOrder|
      invariant found.Some? ==> found.value.key == key && found.value.name in c.nodes
                                 && c.nodes[found.value.name] == found.value
      invariant found == None ==> forall j | 0 <= j < i :: c.nodes[c.nodeOrder[j]].key != key
    {
      assert c.nodeOrder[i] in c.nodeOrder;
      var n := c.nodes[c.nodeOrder[i]];
      if n.key == key && found == None {
        found := Some(n);
      }
    }
    forall n | found == None && n in c.nodes
      ensures c.nodes[n].key != key
    {
      assert n in c.nodeOrder;
    }
  }

  /** Who a hello with this name and key is; an empty name means by key alone. */
  ghost predicate Authenticates(c: Config, name: string, key: string, spec: NodeSpec) {
    && key != "" && spec.name in c.nodes && c.nodes[spec.name] == spec && spec.key == key
    && (name == "" || name == spec.name)
  }

  method Authenticate(c: Config, name: string, key: string) returns (a: Auth)
    requires WellFormed(c)
    ensures a.Accepted? ==> Authenticates(c, name, key, a.spec)
    ensures !a.Accepted? ==> forall n | n in c.nodes :: !Authenticates(c, name, key, c.nodes[n])
    ensures a.EmptyKey? <==> key == ""
    ensures a.UnknownNode? <==> key != "" && name != "" && name !in c.nodes
    ensures a.KeyMismatch? <==> key != "" && name != "" && name in c.nodes && c.nodes[name].key != key
    ensures a.NoMatch? <==> key != "" && name == "" && forall n | n in c.nodes :: c.nodes[n].key != key
  {
    if key == "" {
      return EmptyKey;
    }
    if name != "" {
      if name !in c.nodes {
        return UnknownNode;
      }
      if c.nodes[name].key != key {
        return KeyMismatch;
      }
      return Accepted(c.nodes[name]);
    }
    var spec := NodeByKey(c, key);
    if spec == None {
      return NoMatch;
    }
    return Accepted(spec.value);
  }

  /** Keys are unique, so who authenticates is determined, and a key alone gets a client in
      as exactly the node that name and key get it in as. */
  lemma KeyAloneIsEnough(c: Config, key: string, spec: NodeSpec, other: NodeSpec)
    requires WellFormed(c)
    ensures Authenticates(c, "", key, spec) <==> Authenticates(c, spec.name, key, spec)
    ensures Authenticates(c, "", key, spec) && Authenticates(c, "", key, other) ==> spec == other
  {
  }

  // --- What a node is told ---

  datatype NodeConfig = NodeConfig(ports: map<string, string>, channels: int, heartbeat: int, dialTimeout: int,
                                   maxStreams: int)

  /** The remotes of a node's ports, by port number in decimal. */
  function PortMap(c: Config, node: string): map<string, string> {
    ItoaInjective();
    map p | p in c.ports && c.ports[p].node == node :: Itoa(p) := c.ports[p].remote
  }

  function NodeConfigOf(c: Config, node: string): Option<NodeConfig> {
    if node !in c.nodes then None
    else Some(NodeConfig(PortMap(c, node), c.nodes[node].channels, c.settings.heartbeat,
                         c.settings.dialTimeout, c.settings.maxStreams))
  }

  /** The remotes of exactly the node's ports, by port number in decimal. */
  ghost predicate HasPortsOf(c: Config, node: string, ports: map<string, string>) {
    && (forall p | p in c.ports && c.ports[p].node == node :: Itoa(p) in ports && ports[Itoa(p)] == c.ports[p].remote)
    && forall k | k in ports :: exists p :: p in c.ports && c.ports[p].node == node && k == Itoa(p)
  }

  lemma PortMapIs(c: Config, node: string, ports: map<string, string>)
    ensures HasPortsOf(c, node, ports) <==> ports == PortMap(c, node)
  {
    ItoaInjective();
    if HasPortsOf(c, node, ports) {
      forall k | k in ports
        ensures k in PortMap(c, node) && PortMap(c, node)[k] == ports[k]
      {
        var p :| p in c.ports && c.ports[p].node == node && k == Itoa(p);
      }
      assert ports == PortMap(c, node);
    }
  }

  /** A node is told its own channels and ports, and the three settings that concern it. */
  lemma ToldItsOwn(c: Config, node: string, told: NodeConfig)
    ensures NodeConfigOf(c, node) == Some(told) <==>
              && node in c.nodes && told.channels == c.nodes[node].channels
              && told.heartbeat == c.settings.heartbeat && told.dialTimeout == c.settings.dialTimeout
              && told.maxStreams == c.settings.maxStreams && HasPortsOf(c, node, told.ports)
  {
    PortMapIs(c, node, told.ports);
  }

  /** The part of it that comes from the ports in some set. */
  ghost function PortMapFrom(c: Config, node: string, from: set<nat>): map<string, string> {
    ItoaInjective();
    map p | p in from && p in c.ports && c.ports[p].node == node :: Itoa(p) := c.ports[p].remote
  }

  lemma PortMapWhole(c: Config, node: string, from: set<nat>)
    requires forall p | p in c.ports :: p in from
    ensures PortMapFrom(c, node, from) == PortMap(c, node)
  {
    ItoaInjective();
  }

  lemma PortMapStep(c: Config, node: string, from: set<nat>, p: nat)
    requires p in c.ports
    ensures PortMapFrom(c, node, from + {p}) ==
              if c.ports[p].node == node then PortMapFrom(c, node, from)[Itoa(p) := c.ports[p].remote]
              else PortMapFrom(c, node, from)
  {
    ItoaInjective();
  }

  /** The loop that builds it, over the ports in document order. */
  method BuildNodeConfig(c: Config, node: string) returns (cfg: Option<NodeConfig>)
    requires WellFormed(c)
    ensures cfg == NodeConfigOf(c, node)
    ensures cfg.Some? <==> node in c.nodes
    ensures cfg.Some? ==>
              && cfg.value.channels == c.nodes[node].channels
              && cfg.value.heartbeat == c.settings.heartbeat && cfg.value.dialTimeout == c.settings.dialTimeout
              && cfg.value.maxStreams == c.settings.maxStreams
    ensures cfg.Some? ==> HasPortsOf(c, node, cfg.value.ports)
  {
    if node !in c.nodes {
      return None;
    }
    var ports: map<string, string> := map[];
    ghost var seen: set<nat> := {};
    for i := 0 to |c.portOrder|
      invariant forall j | 0 <= j < i :: c.portOrder[j] in seen
      invariant ports == PortMapFrom(c, node, seen)
    {
      var p := c.portOrder[i];
      assert p in c.portOrder;
      PortMapStep(c, node, seen, p);
      seen := seen + {p};
      if c.ports[p].node == node {
        ports := ports[Itoa(p) := c.ports[p].remote];
      }
    }
    forall p | p in c.ports ensures p in seen {
      assert p in c.portOrder;
    }
    PortMapWhole(c, node, seen);
    PortMapIs(c, node, ports);
    cfg := Some(NodeConfig(ports, c.nodes[node].channels, c.settings.heartbeat, c.settings.dialTimeout,
                           c.settings.maxStreams));
  }

  ghost function OwnedAmong(c: Config, node: string, order: seq<nat>): seq<PortSpec> {
    if order == [] then []
    else
      var p := order[|order| - 1];
      OwnedAmong(c, node, order[..|order| - 1]) + if p in c.ports && c.ports[p].node == node then [c.ports[p]] else []
  }

  lemma {:induction false} OwnedAmongIs(c: Config, node: string, order: seq<nat>)
    requires Distinct(order) && forall p | p in order :: p in c.ports && c.ports[p].port == p
    ensures forall s :: s in OwnedAmong(c, node, order) <==> s.port in order && c.ports[s.port] == s && s.node == node
    ensures Distinct(OwnedAmong(c, node, order))
    decreases |order|
  {
    if order != [] {
      var front, p := order[..|order| - 1], order[|order| - 1];
      assert order == front + [p];
      forall i | 0 <= i < |front| ensures front[i] != p { assert front[i] == order[i]; }
      assert forall i, j | 0 <= i < j < |front| :: front[i] == order[i] && front[j] == order[j];
      OwnedAmongIs(c, node, front);
      if c.ports[p].node == node { AppendDistinct(OwnedAmong(c, node, front), c.ports[p]); }
    }
  }

  function Numbers(specs: seq<PortSpec>): (ports: seq<nat>)
    ensures |ports| == |specs| && forall i | 0 <= i < |specs| :: ports[i] == specs[i].port
  {
    seq(|specs|, i requires 0 <= i < |specs| => specs[i].port)
  }

  lemma {:induction false} OwnedFollows(c: Config, node: string, order: seq<nat>)
    requires forall p | p in order :: p in c.ports && c.ports[p].port == p
    ensures Follows(Numbers(OwnedAmong(c, node, order)), order)
    decreases |order|
  {
    if order != [] {
      var front, p := order[..|order| - 1], order[|order| - 1];
      assert order == front + [p];
      OwnedFollows(c, node, front);
      var owned := OwnedAmong(c, node, front);
      FollowsMore(Numbers(owned), front, p);
      assert Numbers(owned + [c.ports[p]]) == Numbers(owned) + [p];
    }
  }

  /** A node's ports in document order. */
  method PortsOf(c: Config, node: string) returns (out: seq<PortSpec>)
    requires WellFormed(c)
    ensures out == OwnedAmong(c, node, c.portOrder)
    ensures forall s :: s in out <==> s.port in c.ports && c.ports[s.port] == s && s.node == node
    ensures Distinct(out) && Follows(Numbers(out), c.portOrder)
  {
    out := [];
    for i := 0 to |c.portOrder|
      invariant out == OwnedAmong(c, node, c.portOrder[..i])
    {
      var p := c.portOrder[i];
      assert p in c.portOrder;
      assert c.portOrder[..i + 1][..i] == c.portOrder[..i];
      if c.ports[p].node == node {
        out := out + [c.ports[p]];
      }
    }
    assert c.portOrder[..|c.portOrder|] == c.portOrder;
    OwnedAmongIs(c, node, c.portOrder);
    OwnedFollows(c, node, c.portOrder);
  }

  /** What the client makes of a port id in a stream header. */
  function RemoteFor(cfg: Option<NodeConfig>, port: nat): string {
    if cfg == None || Itoa(port) !in cfg.value.ports then "" else cfg.value.ports[Itoa(port)]
  }

  /** A client that holds its node's configuration dials exactly the remotes of that node's
      ports, and refuses every other port. */
  lemma ClientDialsItsPorts(c: Config, node: string, port: nat)
    requires WellFormed(c)
    ensures RemoteFor(NodeConfigOf(c, node), port) ==
              if port in c.ports && c.ports[port].node == node then c.ports[port].remote else ""
  {
    ItoaInjective();
  }

  // --- Equality of node configurations ---

  /** The field-by-field comparison: an absent key of b reads as the empty string. */
  predicate Equal(a: NodeConfig, b: NodeConfig) {
    && a.channels == b.channels && a.heartbeat == b.heartbeat && a.dialTimeout == b.dialTimeout
    && a.maxStreams == b.maxStreams
    && |a.ports| == |b.ports|
    && forall k | k in a.ports :: (if k in b.ports then b.ports[k] else "") == a.ports[k]
  }

  /** Without empty remotes, comparing field by field is exact equality. */
  lemma EqualIsExact(a: NodeConfig, b: NodeConfig)
    requires "" !in a.ports.Values
    ensures Equal(a, b) <==> a == b
  {
    if Equal(a, b) {
      forall k | k in a.ports
        ensures k in b.ports && b.ports[k] == a.ports[k]
      {
        assert a.ports[k] in a.ports.Values;
      }
      SameKeys(a.ports, b.ports);
    }
  }

  lemma SameKeys<K, V>(a: map<K, V>, b: map<K, V>)
    requires |a| == |b| && forall k | k in a :: k in b && b[k] == a[k]
    ensures a == b
  {
    assert a.Keys <= b.Keys && |a.Keys| == |a| && |b.Keys| == |b|;
    EqualSize(a.Keys, b.Keys);
  }

  lemma {:induction false} LongKey(keys: set<string>) returns (k: string)
    ensures k !in keys && forall x | x in keys :: |x| < |k|
    decreases keys
  {
    if keys == {} {
      k := "x";
    } else {
      var x :| x in keys;
      k := LongKey(keys - {x});
      if |k| <= |x| {
        k := x + "x";
      }
      assert forall y | y in keys :: y == x || y in keys - {x};
    }
  }

  /** The comparison is exact equality against every other configuration if and only if no
      remote is empty: an empty remote is taken for an absent one. */
  lemma EqualExactIff(a: NodeConfig)
    ensures (forall b :: Equal(a, b) <==> a == b) <==> "" !in a.ports.Values
  {
    if "" !in a.ports.Values {
      forall b ensures Equal(a, b) <==> a == b { EqualIsExact(a, b); }
    } else {
      var k :| k in a.ports && a.ports[k] == "";
      var k' := LongKey(a.ports.Keys);
      var b := a.(ports := (a.ports - {k})[k' := ""]);
      assert |b.ports| == |a.ports| by {
        assert (a.ports - {k}).Keys == a.ports.Keys - {k};
        assert b.ports.Keys == a.ports.Keys - {k} + {k'};
        assert |b.ports.Keys| == |b.ports| && |a.ports.Keys| == |a.ports|;
      }
      assert Equal(a, b) && k !in b.ports && a != b;
    }
  }

  /** The remotes a loaded configuration pushes are never empty. */
  lemma PushedRemotesNonEmpty(c: Config, node: string)
    requires WellFormed(c) && node in c.nodes
    ensures "" !in NodeConfigOf(c, node).value.ports.Values
  {
    ItoaInjective();
  }
}
