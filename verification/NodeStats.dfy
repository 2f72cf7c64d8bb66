/** The counters of one node, which live as long as the process: every session the node ever had
    adds to them, and so do the connections that find it offline. */
module NodeStats {
  import opened Counting
  import opened Outcomes
  import opened SlotSystem
  import opened SlotInvariant

  datatype Node = Node(
    sessions: map<nat, State>,  // online or not: its last requests may outlive a session
    turnedAway: nat,            // history: connections that found the node offline
    openedCount: int,
    results: map<Label, int>)

  datatype NodeEvent =
    | Online(k: nat, max: int)
    | InSession(k: nat, e: Event)
    | TurnedAway

  ghost function Unseen(): Node {
    Node(map[], 0, 0, map[OK := 0, Timeout := 0, NotAllowed := 0, DialFailed := 0, Rejected := 0])
  }

  ghost predicate Possible(n: Node, e: NodeEvent) {
    match e
    case Online(k, _) => k !in n.sessions
    case InSession(k, e) => k in n.sessions && Enabled(n.sessions[k], e) && (e.Record? ==> e.result in n.results)
    case TurnedAway => Rejected in n.results
  }

  /** A session's step counts for the node what it counts for the session. */
  ghost function After(n: Node, e: NodeEvent): Node
    requires Possible(n, e)
  {
    match e
    case Online(k, max) => n.(sessions := n.sessions[k := Init(max)])
    case InSession(k, e) =>
      n.(sessions := n.sessions[k := Next(n.sessions[k], e)],
         openedCount := n.openedCount + if e.OpenOk? then 1 else 0,
         results := if e.Record? then n.results[e.result := n.results[e.result] + 1] else n.results)
    case TurnedAway => n.(turnedAway := n.turnedAway + 1, results := n.results[Rejected := n.results[Rejected] + 1])
  }

  ghost predicate NodeRun(n: Node, es: seq<NodeEvent>, t: Node)
    decreases |es|
  {
    if es == [] then t == n else Possible(n, es[0]) && NodeRun(After(n, es[0]), es[1..], t)
  }

  // --- What the counters are ---

  ghost function OpenedOf(): State -> int { (s: State) => s.openedCount }

  ghost function ResultOf(l: Label): State -> int { (s: State) => if l in s.results then s.results[l] else 0 }

  ghost predicate Opens(n: Node) {
    n.openedCount == SumOf(n.sessions, OpenedOf())
  }

  ghost predicate Results(n: Node, l: Label) {
    l in n.results && n.results[l] == SumOf(n.sessions, ResultOf(l)) + if l == Rejected then n.turnedAway else 0
  }

  ghost predicate Sound(n: Node) {
    forall k | k in n.sessions :: Counters(n.sessions[k])
  }

  lemma StepOpens(s: State, e: Event)
    requires Enabled(s, e)
    ensures OpenedOf()(Next(s, e)) == OpenedOf()(s) + if e.OpenOk? then 1 else 0
  {
  }

  lemma StepRecords(s: State, e: Event, l: Label)
    requires Enabled(s, e)
    ensures ResultOf(l)(Next(s, e)) == ResultOf(l)(s) + if e.Record? && e.result == l then 1 else 0
  {
  }

  lemma OpensStep(n: Node, e: NodeEvent)
    requires Opens(n) && Possible(n, e)
    ensures Opens(After(n, e))
  {
    match e
    case Online(k, max) => SumOfUpdate(n.sessions, k, Init(max), OpenedOf());
    case InSession(k, f) =>
      StepOpens(n.sessions[k], f);
      SumOfUpdate(n.sessions, k, Next(n.sessions[k], f), OpenedOf());
    case TurnedAway =>
  }

  lemma ResultsStep(n: Node, e: NodeEvent, l: Label)
    requires Results(n, l) && Possible(n, e)
    ensures Results(After(n, e), l)
  {
    match e
    case Online(k, max) => SumOfUpdate(n.sessions, k, Init(max), ResultOf(l));
    case InSession(k, f) =>
      StepRecords(n.sessions[k], f, l);
      SumOfUpdate(n.sessions, k, Next(n.sessions[k], f), ResultOf(l));
    case TurnedAway =>
  }

  lemma SoundStep(n: Node, e: NodeEvent)
    requires Sound(n) && Possible(n, e)
    ensures Sound(After(n, e))
  {
    match e
    case Online(_, max) => InitInv(max);
    case InSession(k, f) => CountersStep(n.sessions[k], f);
    case TurnedAway =>
  }

  lemma {:induction false} RunSums(n: Node, es: seq<NodeEvent>, t: Node)
    requires Opens(n) && Sound(n) && (forall l: Label :: Results(n, l)) && NodeRun(n, es, t)
    ensures Opens(t) && Sound(t) && forall l: Label :: Results(t, l)
    decreases |es|
  {
    if es != [] {
      OpensStep(n, es[0]);
      SoundStep(n, es[0]);
      forall l: Label ensures Results(After(n, es[0]), l) { ResultsStep(n, es[0], l); }
      RunSums(After(n, es[0]), es[1..], t);
    }
  }

  lemma UnseenSums()
    ensures Opens(Unseen()) && Sound(Unseen()) && forall l: Label :: Results(Unseen(), l)
  {
    var none: map<nat, State> := map[];
    assert SumOf(none, OpenedOf()) == 0;
    forall l: Label
      ensures Results(Unseen(), l)
    {
      assert SumOf(none, ResultOf(l)) == 0;
      assert l == OK || l == Timeout || l == NotAllowed || l == DialFailed || l == Rejected;
    }
  }

  /** Whatever sessions a node had, its counters are the sums over them; connections that found
      it offline count as rejected. */
  lemma CountersAreSums(es: seq<NodeEvent>, t: Node)
    requires NodeRun(Unseen(), es, t)
    ensures t.openedCount == SumOf(t.sessions, OpenedOf())
    ensures forall l: Label ::
              && l in t.results
              && t.results[l] == SumOf(t.sessions, ResultOf(l)) + if l == Rejected then t.turnedAway else 0
  {
    UnseenSums();
    RunSums(Unseen(), es, t);
    forall l: Label
      ensures l in t.results
      ensures t.results[l] == SumOf(t.sessions, ResultOf(l)) + if l == Rejected then t.turnedAway else 0
    {
      assert Results(t, l);
    }
  }

  // --- How they add up ---

  /** The forwards whose outcome was recorded. */
  ghost function Recorded(): Phase -> bool { (p: Phase) => p.Settled? || p.Finished? }

  ghost function Answered(): Phase -> bool { (p: Phase) => (p.Settled? || p.Finished?) && p.result != Rejected }

  ghost function AnyOf(a: Label, b: Label): Phase -> bool {
    (p: Phase) => (p.Settled? || p.Finished?) && (p.result == a || p.result == b)
  }

  ghost function RecordedOf(): State -> int { (s: State) => Count(s.reqs, Recorded()) }

  lemma LabelsPartition(m: map<nat, Phase>)
    ensures Count(m, Recorded()) == Count(m, Answered()) + Count(m, Labelled(Rejected))
    ensures Count(m, Answered()) == Count(m, Labelled(OK)) + Count(m, Labelled(Timeout))
              + Count(m, Labelled(NotAllowed)) + Count(m, Labelled(DialFailed))
  {
    CountSplit(m, Recorded(), Answered(), Labelled(Rejected));
    CountSplit(m, Answered(), AnyOf(OK, Timeout), AnyOf(NotAllowed, DialFailed));
    CountSplit(m, AnyOf(OK, Timeout), Labelled(OK), Labelled(Timeout));
    CountSplit(m, AnyOf(NotAllowed, DialFailed), Labelled(NotAllowed), Labelled(DialFailed));
  }

  lemma SessionAddsUp(s: State)
    requires Counters(s)
    ensures ResultOf(OK)(s) + ResultOf(Timeout)(s) + ResultOf(NotAllowed)(s) + ResultOf(DialFailed)(s) <= OpenedOf()(s)
    ensures ResultOf(OK)(s) + ResultOf(Timeout)(s) + ResultOf(NotAllowed)(s) + ResultOf(DialFailed)(s)
          + ResultOf(Rejected)(s) == RecordedOf()(s)
  {
    LabelsPartition(s.reqs);
    CountMonotone(s.reqs, Answered(), WasOpened());
  }

  lemma {:induction false} SessionsAddUp(ss: map<nat, State>)
    requires forall k | k in ss :: Counters(ss[k])
    ensures SumOf(ss, ResultOf(OK)) + SumOf(ss, ResultOf(Timeout)) + SumOf(ss, ResultOf(NotAllowed))
          + SumOf(ss, ResultOf(DialFailed)) <= SumOf(ss, OpenedOf())
    ensures SumOf(ss, ResultOf(OK)) + SumOf(ss, ResultOf(Timeout)) + SumOf(ss, ResultOf(NotAllowed))
          + SumOf(ss, ResultOf(DialFailed)) + SumOf(ss, ResultOf(Rejected)) == SumOf(ss, RecordedOf())
    decreases ss.Keys
  {
    if ss.Keys != {} {
      var k :| k in ss.Keys;
      SumOfTakeOut(ss, k, OpenedOf());
      SumOfTakeOut(ss, k, RecordedOf());
      forall l: Label
        ensures SumOf(ss, ResultOf(l)) == ResultOf(l)(ss[k]) + SumOf(ss - {k}, ResultOf(l))
      {
        SumOfTakeOut(ss, k, ResultOf(l));
      }
      SessionAddsUp(ss[k]);
      SessionsAddUp(ss - {k});
    }
  }

  /** Over all sessions: the five result counters add up to the forwards that recorded an
      outcome, offline ones included, and the four that need a stream never add up to more
      than the streams opened. */
  lemma OutcomesAddUp(es: seq<NodeEvent>, t: Node)
    requires NodeRun(Unseen(), es, t)
    ensures forall l: Label :: l in t.results
    ensures t.results[OK] + t.results[Timeout] + t.results[NotAllowed] + t.results[DialFailed] + t.results[Rejected]
         == SumOf(t.sessions, RecordedOf()) + t.turnedAway
    ensures t.results[OK] + t.results[Timeout] + t.results[NotAllowed] + t.results[DialFailed] <= t.openedCount
  {
    CountersAreSums(es, t);
    UnseenSums();
    RunSums(Unseen(), es, t);
    SessionsAddUp(t.sessions);
  }
}
