/** The change set between two configurations. */
module Diff {
  import opened Basics
  import opened Config

  datatype Diff = Diff(
    addedNodes: seq<string>, removedNodes: seq<string>, keyChangedNodes: seq<string>,
    addedPorts: seq<nat>, removedPorts: seq<nat>,
    changedNodes: seq<string>, settingsChanged: bool)

  predicate Empty(d: Diff) {
    |d.addedNodes| == 0 && |d.removedNodes| == 0 && |d.keyChangedNodes| == 0
    && |d.addedPorts| == 0 && |d.removedPorts| == 0 && |d.changedNodes| == 0
  }

  /** p is served for another owner in a than in b, or not at all in b. */
  predicate Moved(a: Config, b: Config, p: nat) {
    p in a.ports && (p !in b.ports || b.ports[p].node != a.ports[p].node)
  }

  predicate KeyChanged(prev: Config, cur: Config, n: string) {
    n in prev.nodes && n in cur.nodes && prev.nodes[n].key != cur.nodes[n].key
  }

  /** n stays, under the same key, and is told something else. */
  predicate NeedsPush(prev: Config, cur: Config, n: string) {
    && n in prev.nodes && n in cur.nodes && prev.nodes[n].key == cur.nodes[n].key
    && NodeConfigOf(prev, n) != NodeConfigOf(cur, n)
  }

  /** d is the difference between the two: each list holds exactly the names or ports its
      field stands for, once each. */
  ghost predicate IsDiff(prev: Config, cur: Config, d: Diff) {
    && (forall n :: n in d.addedNodes <==> n in cur.nodes && n !in prev.nodes)
    && (forall n :: n in d.removedNodes <==> n in prev.nodes && n !in cur.nodes)
    && (forall n :: n in d.keyChangedNodes <==> KeyChanged(prev, cur, n))
    && (forall p :: p in d.addedPorts <==> Moved(cur, prev, p))
    && (forall p :: p in d.removedPorts <==> Moved(prev, cur, p))
    && (forall n :: n in d.changedNodes <==> NeedsPush(prev, cur, n))
    && (d.settingsChanged <==> prev.settings != cur.settings)
    && Distinct(d.addedNodes) && Distinct(d.removedNodes) && Distinct(d.keyChangedNodes) && Distinct(d.changedNodes)
    && Increasing(d.addedPorts) && Increasing(d.removedPorts)
  }

  // --- Building it ---

  lemma {:induction false} LeastExists(s: set<nat>) returns (m: nat)
    requires s != {}
    ensures m in s && forall x | x in s :: m <= x
    decreases s
  {
    var x :| x in s;
    if s == {x} {
      m := x;
    } else {
      assert s == {x} + (s - {x});
      var y := LeastExists(s - {x});
      m := if x <= y then x else y;
    }
  }

  method SortedPorts(c: Config) returns (out: seq<nat>)
    ensures Increasing(out) && forall p :: p in out <==> p in c.ports
  {
    out := [];
    var left := c.ports.Keys;
    while left != {}
      invariant left <= c.ports.Keys
      invariant forall p :: p in out <==> p in c.ports && p !in left
      invariant Increasing(out)
      invariant forall p, q | p in out && q in left :: p < q
      decreases left
    {
      ghost var m := LeastExists(left);
      var p :| p in left && forall q | q in left :: p <= q;
      AppendIncreasing(out, p);
      out := out + [p];
      left := left - {p};
    }
  }

  method MovedPorts(a: Config, b: Config) returns (out: seq<nat>)
    ensures Increasing(out) && forall p :: p in out <==> Moved(a, b, p)
  {
    out := [];
    var ps := SortedPorts(a);
    for i := 0 to |ps|
      invariant Increasing(out)
      invariant forall p :: p in out <==> p in ps[..i] && Moved(a, b, p)
    {
      assert ps[..i + 1] == ps[..i] + [ps[i]];
      assert ps[i] in ps;
      if ps[i] !in b.ports || b.ports[ps[i]].node != a.ports[ps[i]].node {
        AppendIncreasing(out, ps[i]);
        out := out + [ps[i]];
      }
    }
    assert ps[..|ps|] == ps;
  }

  /** The names in order that satisfy f, in that order. */
  function Select(order: seq<string>, f: string -> bool): (out: seq<string>)
    ensures forall n :: n in out <==> n in order && f(n)
  {
    if order == [] then []
    else
      var last := order[|order| - 1];
      var front := Select(order[..|order| - 1], f);
      assert order == order[..|order| - 1] + [last];
      if f(last) then front + [last] else front
  }

  lemma SelectStep(order: seq<string>, i: nat, f: string -> bool)
    requires i < |order|
    ensures Select(order[..i + 1], f) == Select(order[..i], f) + if f(order[i]) then [order[i]] else []
  {
    assert order[..i + 1][..i] == order[..i];
  }

  lemma {:induction false} SelectDistinct(order: seq<string>, f: string -> bool)
    requires Distinct(order)
    ensures Distinct(Select(order, f))
    decreases |order|
  {
    if order != [] {
      var front := order[..|order| - 1];
      SelectDistinct(front, f);
      forall i | 0 <= i < |front| ensures front[i] != order[|order| - 1] {}
      assert order[|order| - 1] !in front;
      if f(order[|order| - 1]) { AppendDistinct(Select(front, f), order[|order| - 1]); }
    }
  }

  lemma {:induction false} SelectFollows(order: seq<string>, f: string -> bool)
    ensures Follows(Select(order, f), order)
    decreases |order|
  {
    if order != [] {
      var front, last := order[..|order| - 1], order[|order| - 1];
      assert order == front + [last];
      SelectFollows(front, f);
      FollowsMore(Select(front, f), front, last);
    }
  }

  function Gone(cur: Config): string -> bool { n => n !in cur.nodes }

  function Rekeyed(prev: Config, cur: Config): string -> bool { n => KeyChanged(prev, cur, n) }

  /** Nodes of the old configuration that are gone, and those whose key is another one. */
  method LostNodes(prev: Config, cur: Config) returns (removed: seq<string>, keyChanged: seq<string>)
    requires WellFormed(prev) && WellFormed(cur)
    ensures removed == Select(prev.nodeOrder, Gone(cur)) && Follows(removed, prev.nodeOrder)
    ensures keyChanged == Select(prev.nodeOrder, Rekeyed(prev, cur)) && Follows(keyChanged, prev.nodeOrder)
  {
    removed, keyChanged := [], [];
    for i := 0 to |prev.nodeOrder|
      invariant removed == Select(prev.nodeOrder[..i], Gone(cur))
      invariant keyChanged == Select(prev.nodeOrder[..i], Rekeyed(prev, cur))
    {
      var name := prev.nodeOrder[i];
      assert name in prev.nodeOrder;
      SelectStep(prev.nodeOrder, i, Gone(cur));
      SelectStep(prev.nodeOrder, i, Rekeyed(prev, cur));
      if name !in cur.nodes {
        removed := removed + [name];
        continue;
      }
      if prev.nodes[name].key != cur.nodes[name].key {
        keyChanged := keyChanged + [name];
      }
    }
    assert prev.nodeOrder[..|prev.nodeOrder|] == prev.nodeOrder;
    SelectFollows(prev.nodeOrder, Gone(cur));
    SelectFollows(prev.nodeOrder, Rekeyed(prev, cur));
  }

  method NewNodes(prev: Config, cur: Config) returns (added: seq<string>)
    ensures added == Select(cur.nodeOrder, Gone(prev))
  {
    added := [];
    for i := 0 to |cur.nodeOrder|
      invariant added == Select(cur.nodeOrder[..i], Gone(prev))
    {
      SelectStep(cur.nodeOrder, i, Gone(prev));
      if cur.nodeOrder[i] !in prev.nodes {
        added := added + [cur.nodeOrder[i]];
      }
    }
    assert cur.nodeOrder[..|cur.nodeOrder|] == cur.nodeOrder;
  }

  /** Whether a node of both configurations is told something else. */
  method ToldOtherwise(prev: Config, cur: Config, name: string) returns (other: bool)
    requires WellFormed(prev) && WellFormed(cur) && name in prev.nodes && name in cur.nodes
    ensures other <==> NodeConfigOf(prev, name) != NodeConfigOf(cur, name)
  {
    var before := BuildNodeConfig(prev, name);
    var after := BuildNodeConfig(cur, name);
    PushedRemotesNonEmpty(prev, name);
    EqualIsExact(before.value, after.value);
    other := !Equal(before.value, after.value);
  }

  ghost predicate Differs(prev: Config, cur: Config, n: string) {
    n in prev.nodes && n in cur.nodes && NodeConfigOf(prev, n) != NodeConfigOf(cur, n)
  }

  method DifferingNodes(prev: Config, cur: Config) returns (changed: set<string>)
    requires WellFormed(prev) && WellFormed(cur)
    ensures forall n :: n in changed <==> Differs(prev, cur, n)
  {
    changed := {};
    for i := 0 to |cur.nodeOrder|
      invariant forall n :: n in changed <==> n in cur.nodeOrder[..i] && Differs(prev, cur, n)
    {
      var name := cur.nodeOrder[i];
      assert name in cur.nodeOrder;
      assert cur.nodeOrder[..i + 1] == cur.nodeOrder[..i] + [name];
      if name !in prev.nodes {
        continue;
      }
      var other := ToldOtherwise(prev, cur, name);
      if other {
        changed := changed + {name};
      }
    }
    assert cur.nodeOrder[..|cur.nodeOrder|] == cur.nodeOrder;
  }

  /** Surviving nodes that are told something else, less those whose key changed. */
  method ChangedNodes(prev: Config, cur: Config, keyChanged: seq<string>) returns (changed: set<string>)
    requires WellFormed(prev) && WellFormed(cur)
    requires forall n :: n in keyChanged <==> KeyChanged(prev, cur, n)
    ensures forall n :: n in changed <==> NeedsPush(prev, cur, n)
  {
    changed := DifferingNodes(prev, cur);
    ghost var all := changed;
    for i := 0 to |keyChanged|
      invariant forall n :: n in changed <==> n in all && n !in keyChanged[..i]
    {
      assert keyChanged[..i + 1] == keyChanged[..i] + [keyChanged[i]];
      changed := changed - {keyChanged[i]};
    }
    assert keyChanged[..|keyChanged|] == keyChanged;
  }

  method Listed(s: set<string>) returns (out: seq<string>)
    ensures Distinct(out) && forall n :: n in out <==> n in s
  {
    out := [];
    var left := s;
    while left != {}
      invariant left <= s && Distinct(out)
      invariant forall n :: n in out <==> n in s && n !in left
      decreases left
    {
      var n :| n in left;
      AppendDistinct(out, n);
      out := out + [n];
      left := left - {n};
    }
  }

  method DiffConfig(prev: Config, cur: Config) returns (d: Diff)
    requires WellFormed(prev) && WellFormed(cur)
    ensures IsDiff(prev, cur, d)
  {
    var removed, keyChanged := LostNodes(prev, cur);
    var added := NewNodes(prev, cur);
    SelectDistinct(prev.nodeOrder, Gone(cur));
    SelectDistinct(prev.nodeOrder, Rekeyed(prev, cur));
    SelectDistinct(cur.nodeOrder, Gone(prev));
    var removedPorts := MovedPorts(prev, cur);
    var addedPorts := MovedPorts(cur, prev);
    var changed := ChangedNodes(prev, cur, keyChanged);
    var changedNodes := Listed(changed);
    d := Diff(added, removed, keyChanged, addedPorts, removedPorts, changedNodes, prev.settings != cur.settings);
  }

  // --- What it means ---

  lemma PortMapHas(c: Config, p: nat)
    requires p in c.ports
    ensures Itoa(p) in PortMap(c, c.ports[p].node) && PortMap(c, c.ports[p].node)[Itoa(p)] == c.ports[p].remote
  {
    ItoaInjective();
  }

  /** An empty difference with the same settings means the same nodes, keys, channel counts,
      ports, owners and remotes, and only that does. */
  lemma EmptyMeansSame(prev: Config, cur: Config, d: Diff)
    requires WellFormed(prev) && WellFormed(cur) && IsDiff(prev, cur, d)
    ensures Empty(d) && !d.settingsChanged <==>
              prev.nodes == cur.nodes && prev.ports == cur.ports && prev.settings == cur.settings
  {
    if Empty(d) && !d.settingsChanged {
      SameNodes(prev, cur, d);
      SamePorts(prev, cur, d);
    }
    if prev.nodes == cur.nodes && prev.ports == cur.ports && prev.settings == cur.settings {
      NothingListed(prev, cur, d);
    }
  }

  lemma NothingListed(prev: Config, cur: Config, d: Diff)
    requires IsDiff(prev, cur, d)
    requires prev.nodes == cur.nodes && prev.ports == cur.ports && prev.settings == cur.settings
    ensures Empty(d) && !d.settingsChanged
  {
    forall n ensures NodeConfigOf(prev, n) == NodeConfigOf(cur, n) {
      assert PortMap(prev, n) == PortMap(cur, n);
    }
    NoElements(d.addedNodes);
    NoElements(d.removedNodes);
    NoElements(d.keyChangedNodes);
    NoElements(d.addedPorts);
    NoElements(d.removedPorts);
    NoElements(d.changedNodes);
  }

  lemma NoElements<T>(q: seq<T>)
    ensures |q| == 0 || exists x :: x in q
  {
    if |q| > 0 {
      assert q[0] in q;
    }
  }

  lemma SameNodes(prev: Config, cur: Config, d: Diff)
    requires WellFormed(prev) && WellFormed(cur) && IsDiff(prev, cur, d) && Empty(d)
    ensures prev.nodes == cur.nodes
    ensures forall n :: NodeConfigOf(prev, n) == NodeConfigOf(cur, n)
  {
    assert forall n :: n !in d.addedNodes && n !in d.removedNodes && n !in d.keyChangedNodes && n !in d.changedNodes;
    assert prev.nodes.Keys == cur.nodes.Keys;
    forall n | n in prev.nodes
      ensures prev.nodes[n] == cur.nodes[n]
    {
      assert !KeyChanged(prev, cur, n) && !NeedsPush(prev, cur, n);
    }
    forall n
      ensures NodeConfigOf(prev, n) == NodeConfigOf(cur, n)
    {
      if n in prev.nodes { assert !KeyChanged(prev, cur, n) && !NeedsPush(prev, cur, n); }
    }
  }

  lemma SamePorts(prev: Config, cur: Config, d: Diff)
    requires WellFormed(prev) && WellFormed(cur) && IsDiff(prev, cur, d) && Empty(d)
    requires forall n :: NodeConfigOf(prev, n) == NodeConfigOf(cur, n)
    ensures prev.ports == cur.ports
  {
    assert forall p :: p !in d.addedPorts && p !in d.removedPorts;
    forall p | p in prev.ports || p in cur.ports
      ensures p in prev.ports && p in cur.ports && prev.ports[p] == cur.ports[p]
    {
      assert !Moved(prev, cur, p) && !Moved(cur, prev, p);
      var n := prev.ports[p].node;
      PortMapHas(prev, p);
      PortMapHas(cur, p);
      assert NodeConfigOf(prev, n) == NodeConfigOf(cur, n);
    }
  }

  /** n has the same ports in both, with the same remotes. */
  ghost predicate SamePortsOf(prev: Config, cur: Config, n: string) {
    && (forall p | p in prev.ports && prev.ports[p].node == n ::
          p in cur.ports && cur.ports[p].node == n && cur.ports[p].remote == prev.ports[p].remote)
    && (forall p | p in cur.ports && cur.ports[p].node == n :: p in prev.ports && prev.ports[p].node == n)
  }

  lemma SameMapSamePorts(prev: Config, cur: Config, n: string)
    requires PortMap(prev, n) == PortMap(cur, n)
    ensures SamePortsOf(prev, cur, n)
  {
    ItoaInjective();
    forall p | p in prev.ports && prev.ports[p].node == n
      ensures p in cur.ports && cur.ports[p].node == n && cur.ports[p].remote == prev.ports[p].remote
    {
      assert Itoa(p) in PortMap(prev, n);
    }
    forall p | p in cur.ports && cur.ports[p].node == n
      ensures p in prev.ports && prev.ports[p].node == n
    {
      assert Itoa(p) in PortMap(cur, n);
    }
  }

  lemma SamePortMap(prev: Config, cur: Config, n: string)
    ensures PortMap(prev, n) == PortMap(cur, n) <==> SamePortsOf(prev, cur, n)
  {
    if SamePortsOf(prev, cur, n) {
      ItoaInjective();
      assert PortMap(prev, n) == PortMap(cur, n);
    } else if PortMap(prev, n) == PortMap(cur, n) {
      SameMapSamePorts(prev, cur, n);
    }
  }

  /** The nodes listed as changed are those in both, under the same key, of which a channel
      count, a port, a remote or one of the three settings a node is told is not the same. */
  lemma ChangedMeans(prev: Config, cur: Config, d: Diff, n: string)
    requires IsDiff(prev, cur, d)
    ensures n in d.changedNodes <==>
              && n in prev.nodes && n in cur.nodes && prev.nodes[n].key == cur.nodes[n].key
              && !(&& prev.nodes[n].channels == cur.nodes[n].channels
                   && prev.settings.heartbeat == cur.settings.heartbeat
                   && prev.settings.dialTimeout == cur.settings.dialTimeout
                   && prev.settings.maxStreams == cur.settings.maxStreams
                   && SamePortsOf(prev, cur, n))
  {
    SamePortMap(prev, cur, n);
    assert n in d.changedNodes <==> NeedsPush(prev, cur, n);
  }

  /** The nodes listed under a new key are those whose key is not the same; the ports listed as
      removed or added are those not served for the same node in both. */
  lemma ListsMean(prev: Config, cur: Config, d: Diff, p: nat, n: string)
    requires IsDiff(prev, cur, d)
    ensures n in d.keyChangedNodes <==> n in prev.nodes && n in cur.nodes && prev.nodes[n].key != cur.nodes[n].key
    ensures p in d.removedPorts <==> p in prev.ports && !(p in cur.ports && cur.ports[p].node == prev.ports[p].node)
    ensures p in d.addedPorts <==> p in cur.ports && !(p in prev.ports && prev.ports[p].node == cur.ports[p].node)
  {
    assert n in d.keyChangedNodes <==> KeyChanged(prev, cur, n);
    assert p in d.removedPorts <==> Moved(prev, cur, p);
    assert p in d.addedPorts <==> Moved(cur, prev, p);
  }
}
