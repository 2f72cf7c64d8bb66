/** NodeSession runs beside SlotSystem: its channels and waiters are numbered, its view is the
    state machine's core under that numbering, and each of its methods takes the steps of a run. */
module SlotRefinement {
  import opened Basics
  import opened SlotCore
  import opened SlotSystem
  import opened SlotInvariant
  import opened SlotTheorems
  import N = NodeSession

  /** Numbers for channels and for waiters, and back. */
  datatype Numbering<!C, !W> = Numbering(chan: map<C, nat>, chanAt: map<nat, C>, waiter: map<W, nat>,
                                         waiterAt: map<nat, W>)

  ghost predicate Inverse<K>(f: map<K, nat>, g: map<nat, K>) {
    && (forall k | k in f :: f[k] in g && g[f[k]] == k)
    && (forall x | x in g :: g[x] in f && f[g[x]] == x)
  }

  /** The second pool is the first under the numbering f. */
  ghost predicate SamePool<C>(chans: map<C, Chan>, pool: map<int, C>, f: map<C, nat>, g: map<nat, C>,
                              chans': map<nat, Chan>, pool': map<int, nat>) {
    && Inverse(f, g) && f.Keys == chans.Keys && g.Keys == chans'.Keys
    && (forall c | c in chans :: chans'[f[c]] == chans[c])
    && pool.Keys == pool'.Keys && (forall i | i in pool :: pool[i] in chans && pool'[i] == f[pool[i]])
  }

  ghost predicate SameQueue<W>(q: seq<W>, h: map<W, nat>, p: seq<nat>) {
    |q| == |p| && forall i | 0 <= i < |q| :: q[i] in h && p[i] == h[q[i]]
  }

  ghost predicate SameMail<C>(k: Cell<C>, f: map<C, nat>, l: Cell<nat>) {
    && l.handed == k.handed
    && match k.ready
       case None => l.ready == None
       case Some(c) => c in f && l.ready == Some(f[c])
  }

  /** The second queue with its mailboxes is the first under the numbering h. */
  ghost predicate SameLine<C, W>(queue: seq<W>, cells: map<W, Cell<C>>, h: map<W, nat>, k: map<nat, W>, f: map<C, nat>,
                                 queue': seq<nat>, cells': map<nat, Cell<nat>>) {
    && Inverse(h, k) && h.Keys == cells.Keys && k.Keys == cells'.Keys
    && SameQueue(queue, h, queue')
    && (forall w | w in cells :: SameMail(cells[w], f, cells'[h[w]]))
  }

  /** The two halves of Same. */
  ghost predicate PoolOf<C, W>(v: Core<C, W>, n: Numbering<C, W>, s: Core<nat, nat>) {
    SamePool(v.chans, v.pool, n.chan, n.chanAt, s.chans, s.pool)
  }

  ghost predicate LineOf<C, W>(v: Core<C, W>, n: Numbering<C, W>, s: Core<nat, nat>) {
    SameLine(v.queue, v.cells, n.waiter, n.waiterAt, n.chan, s.queue, s.cells)
  }

  /** s is v under the numbering. */
  ghost predicate Same<C, W>(v: Core<C, W>, n: Numbering<C, W>, s: Core<nat, nat>) {
    && v.max == s.max && v.total == s.total
    && PoolOf(v, n, s) && LineOf(v, n, s)
  }

  // --- The steps commute with the numbering ---

  lemma RoomCommutes<C, W>(v: Core<C, W>, n: Numbering<C, W>, s: Core<nat, nat>)
    requires v.max == s.max && PoolOf(v, n, s)
    ensures forall c | c in v.chans :: HasRoom(v, c) <==> HasRoom(s, n.chan[c])
    ensures Full(v) <==> Full(s)
  {
    forall c | c in v.chans
      ensures HasRoom(v, c) <==> HasRoom(s, n.chan[c])
    {
    }
    forall x | x in s.chans
      ensures HasRoom(s, x) <==> HasRoom(v, n.chanAt[x])
    {
      assert x == n.chan[n.chanAt[x]];
    }
  }

  lemma BookingCommutes<C, W>(v: Core<C, W>, n: Numbering<C, W>, s: Core<nat, nat>, c: C)
    requires v.max == s.max && PoolOf(v, n, s) && CanBook(v, c)
    ensures c in n.chan && CanBook(s, n.chan[c])
  {
    RoomCommutes(v, n, s);
    forall x | x in s.chans && HasRoom(s, x)
      ensures s.chans[n.chan[c]].active <= s.chans[x].active
    {
      assert x == n.chan[n.chanAt[x]] && HasRoom(v, n.chanAt[x]);
    }
  }

  lemma ChangeCommutes<C>(chans: map<C, Chan>, pool: map<int, C>, f: map<C, nat>, g: map<nat, C>,
                          chans': map<nat, Chan>, pool': map<int, nat>, c: C, k: Chan)
    requires SamePool(chans, pool, f, g, chans', pool') && c in chans
    ensures SamePool(chans[c := k], pool, f, g, chans'[f[c] := k], pool')
  {
  }

  lemma SetActiveCommutes<C, W>(v: Core<C, W>, n: Numbering<C, W>, s: Core<nat, nat>, c: C, a: int, total: int)
    requires Same(v, n, s) && c in v.chans
    ensures Same(SetActive(v, c, a).(total := total), n, SetActive(s, n.chan[c], a).(total := total))
  {
    ChangeCommutes(v.chans, v.pool, n.chan, n.chanAt, s.chans, s.pool, c, v.chans[c].(active := a));
  }

  lemma BookCommutes<C, W>(v: Core<C, W>, n: Numbering<C, W>, s: Core<nat, nat>, c: C)
    requires Same(v, n, s) && CanBook(v, c)
    ensures c in n.chan && CanBook(s, n.chan[c]) && Same(Book(v, c), n, Book(s, n.chan[c]))
  {
    BookingCommutes(v, n, s, c);
    SetActiveCommutes(v, n, s, c, v.chans[c].active + 1, v.total + 1);
  }

  lemma UnbookCommutes<C, W>(v: Core<C, W>, n: Numbering<C, W>, s: Core<nat, nat>, c: C)
    requires Same(v, n, s) && c in v.chans
    ensures c in n.chan && n.chan[c] in s.chans && Same(Unbook(v, c), n, Unbook(s, n.chan[c]))
  {
    SetActiveCommutes(v, n, s, c, v.chans[c].active - 1, v.total - 1);
  }

  lemma MailCommutes<C, W>(queue: seq<W>, cells: map<W, Cell<C>>, h: map<W, nat>, k: map<nat, W>, f: map<C, nat>,
                           queue': seq<nat>, cells': map<nat, Cell<nat>>, w: W, mail: Cell<C>, mail': Cell<nat>)
    requires SameLine(queue, cells, h, k, f, queue', cells') && w in cells && SameMail(mail, f, mail')
    ensures SameLine(queue, cells[w := mail], h, k, f, queue', cells'[h[w] := mail'])
  {
  }

  lemma TailCommutes<W>(q: seq<W>, h: map<W, nat>, p: seq<nat>)
    requires SameQueue(q, h, p) && q != []
    ensures SameQueue(q[1..], h, p[1..])
  {
  }

  lemma ServePool<C, W>(v: Core<C, W>, n: Numbering<C, W>, s: Core<nat, nat>, c: C)
    requires PoolOf(v, n, s) && c in v.chans && v.queue != [] && s.queue != []
    ensures c in n.chan && n.chan[c] in s.chans && PoolOf(Serve(v, c), n, Serve(s, n.chan[c]))
  {
    ChangeCommutes(v.chans, v.pool, n.chan, n.chanAt, s.chans, s.pool, c, v.chans[c].(active := v.chans[c].active + 1));
  }

  lemma ServeLine<C, W>(v: Core<C, W>, n: Numbering<C, W>, s: Core<nat, nat>, c: C)
    requires LineOf(v, n, s) && c in v.chans && c in n.chan && n.chan[c] in s.chans && v.queue != []
    ensures s.queue != [] && LineOf(Serve(v, c), n, Serve(s, n.chan[c]))
  {
    MailCommutes(v.queue, v.cells, n.waiter, n.waiterAt, n.chan, s.queue, s.cells,
                 v.queue[0], Cell(true, Some(c)), Cell(true, Some(n.chan[c])));
    TailCommutes(v.queue, n.waiter, s.queue);
  }

  lemma ServeCommutes<C, W>(v: Core<C, W>, n: Numbering<C, W>, s: Core<nat, nat>, c: C)
    requires Same(v, n, s) && c in v.chans && v.queue != []
    ensures s.queue != [] && Same(Serve(v, c), n, Serve(s, n.chan[c]))
  {
    assert SameQueue(v.queue, n.waiter, s.queue);
    ServePool(v, n, s, c);
    ServeLine(v, n, s, c);
  }

  ghost predicate Numbered<C>(picks: seq<C>, f: map<C, nat>) { forall c | c in picks :: c in f }

  ghost function NumbersOf<C>(picks: seq<C>, f: map<C, nat>): seq<nat>
    requires Numbered(picks, f)
  {
    seq(|picks|, i requires 0 <= i < |picks| => f[picks[i]])
  }

  lemma NumbersOfMore<C>(picks: seq<C>, f: map<C, nat>)
    requires picks != [] && picks[0] in f && Numbered(picks[1..], f)
    ensures Numbered(picks, f) && NumbersOf(picks, f)[0] == f[picks[0]]
    ensures NumbersOf(picks, f)[1..] == NumbersOf(picks[1..], f)
  {
    assert picks == [picks[0]] + picks[1..];
  }

  lemma {:induction false} ServesCommutes<C, W>(v: Core<C, W>, n: Numbering<C, W>, s: Core<nat, nat>,
                                                picks: seq<C>, v': Core<C, W>)
    returns (s': Core<nat, nat>)
    requires Same(v, n, s) && Serves(v, picks, v')
    ensures Numbered(picks, n.chan) && Serves(s, NumbersOf(picks, n.chan), s') && Same(v', n, s')
    decreases |picks|
  {
    if picks == [] {
      s' := s;
    } else {
      BookingCommutes(v, n, s, picks[0]);
      ServeCommutes(v, n, s, picks[0]);
      s' := ServesCommutes(Serve(v, picks[0]), n, Serve(s, n.chan[picks[0]]), picks[1..], v');
      NumbersOfMore(picks, n.chan);
    }
  }

  lemma HandoffCommutes<C, W>(v: Core<C, W>, n: Numbering<C, W>, s: Core<nat, nat>, picks: seq<C>, v': Core<C, W>)
    returns (s': Core<nat, nat>)
    requires Same(v, n, s) && Handoff(v, picks, v')
    ensures Numbered(picks, n.chan) && Handoff(s, NumbersOf(picks, n.chan), s') && Same(v', n, s')
  {
    s' := ServesCommutes(v, n, s, picks, v');
    RoomCommutes(v', n, s');
  }

  /** A new waiter gets the next ticket. */
  ghost function WithWaiter<C, W>(n: Numbering<C, W>, w: W, x: nat): Numbering<C, W> {
    n.(waiter := n.waiter[w := x], waiterAt := n.waiterAt[x := w])
  }

  lemma InverseMore<K>(f: map<K, nat>, g: map<nat, K>, k: K, x: nat)
    requires Inverse(f, g) && k !in f && x !in g
    ensures Inverse(f[k := x], g[x := k])
  {
  }

  lemma ParkCommutes<C, W>(v: Core<C, W>, n: Numbering<C, W>, s: Core<nat, nat>, w: W, x: nat)
    requires Same(v, n, s) && w !in v.cells && x !in s.cells
    ensures Same(Park(v, w), WithWaiter(n, w, x), Park(s, x))
  {
    InverseMore(n.waiter, n.waiterAt, w, x);
    assert SameQueue(v.queue + [w], n.waiter[w := x], s.queue + [x]);
  }

  lemma {:induction false} WithoutCommutes<W>(q: seq<W>, h: map<W, nat>, k: map<nat, W>, p: seq<nat>, w: W)
    requires SameQueue(q, h, p) && Inverse(h, k) && w in h
    ensures SameQueue(Without(q, w), h, Without(p, h[w]))
    decreases |q|
  {
    if q != [] {
      assert p[0] == h[w] <==> q[0] == w;
      TailCommutes(q, h, p);
      WithoutCommutes(q[1..], h, k, p[1..], w);
    }
  }

  ghost function WithChannel<C, W>(n: Numbering<C, W>, c: C, x: nat): Numbering<C, W> {
    n.(chan := n.chan[c := x], chanAt := n.chanAt[x := c])
  }

  lemma AddPool<C>(chans: map<C, Chan>, pool: map<int, C>, f: map<C, nat>, g: map<nat, C>,
                   chans': map<nat, Chan>, pool': map<int, nat>, c: C, x: nat, k: Chan)
    requires SamePool(chans, pool, f, g, chans', pool') && c !in chans && x !in chans'
    ensures SamePool(chans[c := k], pool[k.id := c], f[c := x], g[x := c], chans'[x := k], pool'[k.id := x])
  {
    InverseMore(f, g, c, x);
  }

  lemma AddLine<C, W>(queue: seq<W>, cells: map<W, Cell<C>>, h: map<W, nat>, k: map<nat, W>, f: map<C, nat>,
                      queue': seq<nat>, cells': map<nat, Cell<nat>>, c: C, x: nat)
    requires SameLine(queue, cells, h, k, f, queue', cells') && c !in f
    ensures SameLine(queue, cells, h, k, f[c := x], queue', cells')
  {
    forall w | w in cells
      ensures SameMail(cells[w], f[c := x], cells'[h[w]])
    {
      assert SameMail(cells[w], f, cells'[h[w]]);
    }
  }

  lemma AddChanCommutes<C, W>(v: Core<C, W>, n: Numbering<C, W>, s: Core<nat, nat>, c: C, x: nat, k: Chan)
    requires Same(v, n, s) && c !in v.chans && x !in s.chans
    ensures Same(AddChan(v, c, k), WithChannel(n, c, x), AddChan(s, x, k))
  {
    AddPool(v.chans, v.pool, n.chan, n.chanAt, s.chans, s.pool, c, x, k);
    AddLine(v.queue, v.cells, n.waiter, n.waiterAt, n.chan, s.queue, s.cells, c, x);
  }

  lemma KillCommutes<C, W>(v: Core<C, W>, n: Numbering<C, W>, s: Core<nat, nat>, c: C)
    requires Same(v, n, s) && c in v.chans
    ensures Same(Kill(v, c), n, Kill(s, n.chan[c]))
  {
    ChangeCommutes(v.chans, v.pool, n.chan, n.chanAt, s.chans, s.pool, c, v.chans[c].(dead := true));
  }

  lemma RemoveChanCommutes<C, W>(v: Core<C, W>, n: Numbering<C, W>, s: Core<nat, nat>, c: C)
    requires Same(v, n, s) && c in v.chans
    ensures Same(RemoveChan(v, c), n, RemoveChan(s, n.chan[c]))
  {
    var id := v.chans[c].id;
    var v' := if id in v.pool && v.pool[id] == c then v.(pool := v.pool - {id}) else v;
    var s' := if id in s.pool && s.pool[id] == n.chan[c] then s.(pool := s.pool - {id}) else s;
    assert id in v.pool && v.pool[id] == c <==> id in s.pool && s.pool[id] == n.chan[c];
    assert Same(v', n, s');
    KillCommutes(v', n, s', c);
  }

  lemma EmptyCommutes<C, W>(v: Core<C, W>, n: Numbering<C, W>, s: Core<nat, nat>)
    requires Same(v, n, s)
    ensures Same(v.(pool := map[]), n, s.(pool := map[]))
  {
  }

  lemma FetchCommutes<C, W>(v: Core<C, W>, n: Numbering<C, W>, s: Core<nat, nat>, w: W)
    requires Same(v, n, s) && w in v.cells
    ensures Same(v.(cells := v.cells[w := Cell(true, None)]), n, s.(cells := s.cells[n.waiter[w] := Cell(true, None)]))
  {
    MailCommutes(v.queue, v.cells, n.waiter, n.waiterAt, n.chan, s.queue, s.cells, w,
                 Cell(true, None), Cell(true, None));
  }

  // --- Runs ---

  lemma {:induction false} RunConcat(s: State, es: seq<Event>, t: State, fs: seq<Event>, u: State)
    requires Run(s, es, t) && Run(t, fs, u)
    ensures Run(s, es + fs, u)
    decreases |es|
  {
    if es == [] {
      assert [] + fs == fs;
    } else {
      RunConcat(Next(s, es[0]), es[1..], t, fs, u);
      assert (es + fs)[1..] == es[1..] + fs;
    }
  }

  lemma OneStep(s: State, e: Event)
    requires Enabled(s, e)
    ensures Run(s, [e], Next(s, e))
  {
    assert Run(Next(s, e), [e][1..], Next(s, e));
  }

  /** From a held lock a hand-off of the session is the run of its rounds. */
  lemma HandoffRuns<C, W>(v: Core<C, W>, n: Numbering<C, W>, s: State, picks: seq<C>, v': Core<C, W>) returns (t: State)
    requires Same(v, n, s.core) && s.handing && Handoff(v, picks, v')
    ensures Numbered(picks, n.chan) && Run(s, HandEvents(NumbersOf(picks, n.chan)), t)
    ensures Same(v', n, t.core) && t.done == s.done
  {
    var core := HandoffCommutes(v, n, s.core, picks, v');
    var xs := NumbersOf(picks, n.chan);
    HandoffIsRun(s, xs, core);
    t := AfterHandoff(s, core, |xs|);
  }

  /** The events of a step that takes the lock and hands off. */
  lemma ThenHandoff<C, W>(s: State, e: Event, v: Core<C, W>, n: Numbering<C, W>, picks: seq<C>, v': Core<C, W>)
    returns (t: State)
    requires Enabled(s, e) && Same(v, n, Next(s, e).core) && Next(s, e).handing && Handoff(v, picks, v')
    ensures Numbered(picks, n.chan) && Run(s, [e] + HandEvents(NumbersOf(picks, n.chan)), t)
    ensures Same(v', n, t.core) && t.done == Next(s, e).done
  {
    t := HandoffRuns(v, n, Next(s, e), picks, v');
    OneStep(s, e);
    RunConcat(s, [e], Next(s, e), HandEvents(NumbersOf(picks, n.chan)), t);
  }

  lemma ReserveStep(s: State, r: nat, x: nat)
    requires At(s, r) && s.reqs[r].Arrived? && !s.handing && s.core.queue == [] && CanBook(s.core, x)
    ensures Run(s, [Reserve(r, x)], Next(s, Reserve(r, x)))
    ensures Next(s, Reserve(r, x)).core == Book(s.core, x) && Next(s, Reserve(r, x)).done == s.done
  {
    OneStep(s, Reserve(r, x));
  }

  lemma ReserveRuns<C, W>(v: Core<C, W>, n: Numbering<C, W>, s: State, r: nat, c: C, v': Core<C, W>)
    returns (t: State)
    requires Same(v, n, s.core) && At(s, r) && s.reqs[r].Arrived? && !s.handing
    requires v.queue == [] && CanBook(v, c) && v' == Book(v, c)
    ensures c in n.chan && Run(s, [Reserve(r, n.chan[c])], t) && Same(v', n, t.core) && t.done == s.done
  {
    assert SameQueue(v.queue, n.waiter, s.core.queue);
    BookCommutes(v, n, s.core, c);
    ReserveStep(s, r, n.chan[c]);
    t := Next(s, Reserve(r, n.chan[c]));
  }

  lemma ParkRuns<C, W>(v: Core<C, W>, n: Numbering<C, W>, s: State, r: nat, w: W, v': Core<C, W>)
    returns (t: State)
    requires Same(v, n, s.core) && At(s, r) && s.reqs[r].Arrived? && !s.handing
    requires (v.queue != [] || Full(v)) && v' == Park(v, w)
    requires w !in v.cells && NextTicket(s) !in s.core.cells
    ensures Run(s, [JoinTail(r)], t) && Same(v', WithWaiter(n, w, NextTicket(s)), t.core) && t.done == s.done
  {
    RoomCommutes(v, n, s.core);
    ParkCommutes(v, n, s.core, w, NextTicket(s));
    OneStep(s, JoinTail(r));
    t := Next(s, JoinTail(r));
  }

  /** One of the two, as acquire answers. */
  lemma AcquireRuns<C, W>(v: Core<C, W>, n: Numbering<C, W>, s: State, r: nat, got: Option<C>, w: Option<W>,
                          v': Core<C, W>)
    returns (es: seq<Event>, t: State, n': Numbering<C, W>)
    requires Same(v, n, s.core) && At(s, r) && s.reqs[r].Arrived? && !s.handing && NextTicket(s) !in s.core.cells
    requires got.Some? ==> v.queue == [] && CanBook(v, got.value) && v' == Book(v, got.value)
    requires got == None ==> w.Some? && (v.queue != [] || Full(v)) && w.value !in v.cells && v' == Park(v, w.value)
    ensures Run(s, es, t) && Same(v', n', t.core) && t.done == s.done
    ensures got.Some? ==> got.value in n.chan && es == [Reserve(r, n.chan[got.value])] && n' == n
    ensures got == None ==> es == [JoinTail(r)] && n' == WithWaiter(n, w.value, NextTicket(s))
  {
    match got
    case Some(c) =>
      t := ReserveRuns(v, n, s, r, c, v');
      es, n' := [Reserve(r, n.chan[c])], n;
    case None =>
      t := ParkRuns(v, n, s, r, w.value, v');
      es, n' := [JoinTail(r)], WithWaiter(n, w.value, NextTicket(s));
  }

  /** r is about to abandon x, and if x was handed a slot, the slot is in its mailbox. */
  ghost predicate MayAbandon(s: State, r: nat, x: nat) {
    && At(s, r) && s.reqs[r].Leaving? && s.reqs[r].w == x && x in s.core.cells
    && (s.core.cells[x].handed ==> s.core.cells[x].ready.Some?)
  }

  /** So it is in every state that can be reached. */
  lemma LeavingMayAbandon(max: int, es: seq<Event>, s: State, r: nat)
    requires Run(Init(max), es, s) && At(s, r) && s.reqs[r].Leaving?
    ensures MayAbandon(s, r, s.reqs[r].w)
  {
    assert Life(s) && Wf(s.core) by { Reached(max, es, s); }
  }

  /** And the next ticket is unused. */
  lemma TicketIsNew(max: int, es: seq<Event>, s: State)
    requires Run(Init(max), es, s)
    ensures NextTicket(s) !in s.core.cells
  {
    assert Tickets(s) by { Reached(max, es, s); }
  }

  lemma CollectRuns<C, W>(v: Core<C, W>, n: Numbering<C, W>, s: State, r: nat, w: W) returns (t: State)
    requires Same(v, n, s.core) && w in v.cells && MayAbandon(s, r, n.waiter[w]) && !s.handing && v.cells[w].handed
    ensures v.cells[w].ready.Some? && v.cells[w].ready.value in n.chan
    ensures Run(s, [Abandon(r), Collect(r)], t) && t.done == s.done
    ensures Same(v.(cells := v.cells[w := Cell(true, None)]), n, t.core)
    ensures At(t, r) && t.reqs[r] == Holding(n.chan[v.cells[w].ready.value])
  {
    assert SameMail(v.cells[w], n.chan, s.core.cells[n.waiter[w]]);
    FetchCommutes(v, n, s.core, w);
    OneStep(s, Abandon(r));
    var u := Next(s, Abandon(r));
    OneStep(u, Collect(r));
    RunConcat(s, [Abandon(r)], u, [Collect(r)], Next(u, Collect(r)));
    assert [Abandon(r)] + [Collect(r)] == [Abandon(r), Collect(r)];
    t := Next(u, Collect(r));
  }

  lemma LeaveRuns<C, W>(v: Core<C, W>, n: Numbering<C, W>, s: State, r: nat, w: W) returns (t: State)
    requires Same(v, n, s.core) && w in v.cells && MayAbandon(s, r, n.waiter[w]) && !s.handing && !v.cells[w].handed
    ensures Run(s, [Abandon(r)], t) && At(t, r) && t.reqs[r].GaveUp? && t.done == s.done
    ensures Same(v.(queue := Without(v.queue, w)), n, t.core)
  {
    assert SameMail(v.cells[w], n.chan, s.core.cells[n.waiter[w]]);
    WithoutCommutes(v.queue, n.waiter, n.waiterAt, s.core.queue, w);
    OneStep(s, Abandon(r));
    t := Next(s, Abandon(r));
  }

  lemma AbandonRuns<C, W>(v: Core<C, W>, n: Numbering<C, W>, s: State, r: nat, w: W, v': Core<C, W>)
    returns (es: seq<Event>, t: State)
    requires Same(v, n, s.core) && w in v.cells && MayAbandon(s, r, n.waiter[w]) && !s.handing
    requires v' == if v.cells[w].handed then v.(cells := v.cells[w := Cell(true, None)])
                   else v.(queue := Without(v.queue, w))
    ensures Run(s, es, t) && Same(v', n, t.core) && t.done == s.done && At(t, r)
    ensures if v.cells[w].handed then
              && es == [Abandon(r), Collect(r)] && v.cells[w].ready.Some? && v.cells[w].ready.value in n.chan
              && t.reqs[r] == Holding(n.chan[v.cells[w].ready.value])
            else es == [Abandon(r)] && t.reqs[r].GaveUp?
  {
    if v.cells[w].handed {
      t := CollectRuns(v, n, s, r, w);
      es := [Abandon(r), Collect(r)];
    } else {
      t := LeaveRuns(v, n, s, r, w);
      es := [Abandon(r)];
    }
  }

  /** The events that give a slot of c back: a failed open, or the end of a stream. */
  ghost predicate GivesBack(s: State, e: Event, x: nat) {
    (e.OpenFail? || e.CloseStream?) && Enabled(s, e) && s.reqs[e.r].c == x
  }

  lemma GiveBackStep(s: State, e: Event, x: nat)
    requires GivesBack(s, e, x)
    ensures x in s.core.chans && Next(s, e).core == Unbook(s.core, x) && Next(s, e).handing && Next(s, e).done == s.done
  {
  }

  lemma ReleaseRuns<C, W>(v: Core<C, W>, n: Numbering<C, W>, s: State, e: Event, c: C, picks: seq<C>, v': Core<C, W>)
    returns (t: State)
    requires Same(v, n, s.core) && c in v.chans && GivesBack(s, e, n.chan[c]) && Handoff(Unbook(v, c), picks, v')
    ensures Numbered(picks, n.chan) && Run(s, [e] + HandEvents(NumbersOf(picks, n.chan)), t)
    ensures Same(v', n, t.core) && t.done == s.done
  {
    GiveBackStep(s, e, n.chan[c]);
    UnbookCommutes(v, n, s.core, c);
    t := ThenHandoff(s, e, Unbook(v, c), n, picks, v');
  }

  lemma SetConfigRuns<C, W>(v: Core<C, W>, n: Numbering<C, W>, s: State, max: int, picks: seq<C>, v': Core<C, W>)
    returns (t: State)
    requires Same(v, n, s.core) && !s.handing && Handoff(v.(max := max), picks, v')
    ensures Numbered(picks, n.chan)
    ensures Run(s, [StoreMax(max)] + ([LockConfig] + HandEvents(NumbersOf(picks, n.chan))), t)
    ensures Same(v', n, t.core) && t.done == s.done
  {
    OneStep(s, StoreMax(max));
    var u := Next(s, StoreMax(max));
    t := ThenHandoff(u, LockConfig, v.(max := max), n, picks, v');
    RunConcat(s, [StoreMax(max)], u, [LockConfig] + HandEvents(NumbersOf(picks, n.chan)), t);
  }

  lemma AddChannelRuns<C, W>(v: Core<C, W>, n: Numbering<C, W>, s: State, c: C, x: nat, id: int, picks: seq<C>,
                             v': Core<C, W>)
    returns (t: State)
    requires Same(v, n, s.core) && !s.handing && c !in v.chans && x !in s.core.chans
    requires Handoff(AddChan(v, c, Chan(id, 0, false)), picks, v')
    ensures var n' := WithChannel(n, c, x);
            && Numbered(picks, n'.chan) && Run(s, [AddChannel(x, id)] + HandEvents(NumbersOf(picks, n'.chan)), t)
            && Same(v', n', t.core) && t.done == s.done
  {
    AddChanCommutes(v, n, s.core, c, x, Chan(id, 0, false));
    t := ThenHandoff(s, AddChannel(x, id), AddChan(v, c, Chan(id, 0, false)), WithChannel(n, c, x), picks, v');
  }

  lemma DieRuns<C, W>(v: Core<C, W>, n: Numbering<C, W>, s: State, c: C)
    requires Same(v, n, s.core) && c in v.chans
    ensures c in n.chan && Enabled(s, Die(n.chan[c])) && Run(s, [Die(n.chan[c])], Next(s, Die(n.chan[c])))
    ensures Same(Kill(v, c), n, Next(s, Die(n.chan[c])).core) && Next(s, Die(n.chan[c])).done == s.done
  {
    KillCommutes(v, n, s.core, c);
    OneStep(s, Die(n.chan[c]));
  }

  lemma KilledMore<C>(chans: map<C, Chan>, gone: set<C>, c: C)
    requires c in gone && c in chans
    ensures Killed(chans[c := chans[c].(dead := true)], gone - {c}) == Killed(chans, gone)
  {
  }

  /** Closing channels one by one, in any order. */
  lemma {:induction false} DiesRun<C, W>(v: Core<C, W>, n: Numbering<C, W>, s: State, gone: set<C>)
    returns (es: seq<Event>, t: State)
    requires Same(v, n, s.core) && gone <= v.chans.Keys
    ensures Run(s, es, t) && (forall e | e in es :: e.Die?) && t.done == s.done
    ensures Same(v.(chans := Killed(v.chans, gone)), n, t.core)
    decreases gone
  {
    if gone == {} {
      es, t := [], s;
      assert Killed(v.chans, {}) == v.chans;
    } else {
      var c :| c in gone;
      DieRuns(v, n, s, c);
      KilledMore(v.chans, gone, c);
      var e := Die(n.chan[c]);
      var fs;
      fs, t := DiesRun(Kill(v, c), n, Next(s, e), gone - {c});
      RunConcat(s, [e], Next(s, e), fs, t);
      es := [e] + fs;
    }
  }

  /** In a state that matches a session which was shut, exactly what was in the pool has died. */
  lemma ShutCloses<C, W>(v: Core<C, W>, n: Numbering<C, W>, s: Core<nat, nat>, t: Core<nat, nat>)
    requires Same(v, n, s) && Same(Shut(v), n, t)
    ensures t.pool == map[] && t.chans.Keys == s.chans.Keys
    ensures forall x | x in s.chans :: t.chans[x] == s.chans[x].(dead := s.chans[x].dead || x in s.pool.Values)
  {
    forall x | x in s.chans
      ensures t.chans[x] == s.chans[x].(dead := s.chans[x].dead || x in s.pool.Values)
    {
      var c := n.chanAt[x];
      if x in s.pool.Values {
        var i := KeyOf(s.pool, x);
        assert v.pool[i] == c;
      } else if c in v.pool.Values {
        var i := KeyOf(v.pool, c);
      }
      assert t.chans[n.chan[c]] == Shut(v).chans[c];
    }
  }

  lemma CloseRuns<C, W>(v: Core<C, W>, n: Numbering<C, W>, s: State) returns (es: seq<Event>, t: State)
    requires Same(v, n, s.core) && !s.handing && !s.done && v.pool.Values <= v.chans.Keys
    ensures Run(s, [CloseSession] + ([EmptyPool] + es), t) && (forall e | e in es :: e.Die?)
    ensures Same(Shut(v), n, t.core) && t.done
  {
    OneStep(s, CloseSession);
    var u := Next(s, CloseSession);
    OneStep(u, EmptyPool);
    var w := Next(u, EmptyPool);
    EmptyCommutes(v, n, s.core);
    es, t := DiesRun(v.(pool := map[]), n, w, v.pool.Values);
    RunConcat(u, [EmptyPool], w, es, t);
    RunConcat(s, [CloseSession], u, [EmptyPool] + es, t);
  }

  // --- The methods ---

  type Numbers = Numbering<N.DataChannel, N.SlotWaiter>

  /** The session is in the state s of the machine. */
  ghost predicate InState(n: N.NodeSession, num: Numbers, s: State)
    reads n, n.known, n.parked
  {
    n.Valid() && Same(n.View(), num, s.core) && s.done == n.done
  }

  /** A session that was just made is in the initial state. */
  method RunNew(max: int) returns (n: N.NodeSession, ghost num: Numbers)
    ensures fresh(n) && InState(n, num, Init(max))
  {
    n := new N.NodeSession(max);
    num := Numbering(map[], map[], map[], map[]);
  }

  /** acquire is one reservation, or one parking. */
  method RunAcquire(n: N.NodeSession, r: nat, ghost s: State, ghost num: Numbers)
    returns (ch: N.DataChannel?, waiter: N.SlotWaiter?, ghost es: seq<Event>, ghost t: State, ghost num': Numbers)
    requires InState(n, num, s) && NextTicket(s) !in s.core.cells && At(s, r) && s.reqs[r].Arrived? && !s.handing
    modifies n`activeStreams, n`waiters, n`parked, n.known`active
    ensures InState(n, num', t) && Run(s, es, t)
    ensures ch != null ==> ch in num.chan && es == [Reserve(r, num.chan[ch])] && num' == num
    ensures ch == null ==> waiter != null && es == [JoinTail(r)] && num' == WithWaiter(num, waiter, NextTicket(s))
  {
    ghost var v := n.View();
    ch, waiter := n.Acquire();
    ghost var got := if ch == null then None else Some(ch as N.DataChannel);
    ghost var at := if waiter == null then None else Some(waiter as N.SlotWaiter);
    es, t, num' := AcquireRuns(v, num, s, r, got, at, n.View());
  }

  /** abandon takes the waiter out, or is followed by the collection of its slot. */
  method RunAbandon(n: N.NodeSession, w: N.SlotWaiter, r: nat, ghost s: State, ghost num: Numbers)
    returns (ch: N.DataChannel?, ghost es: seq<Event>, ghost t: State)
    requires InState(n, num, s) && w in n.parked && MayAbandon(s, r, num.waiter[w]) && !s.handing
    modifies n`waiters, w`ready
    ensures InState(n, num, t) && Run(s, es, t) && At(t, r)
    ensures if ch == null then es == [Abandon(r)] && t.reqs[r].GaveUp?
            else es == [Abandon(r), Collect(r)] && ch in num.chan && t.reqs[r] == Holding(num.chan[ch])
  {
    ghost var v := n.View();
    assert SameMail(v.cells[w], num.chan, s.core.cells[num.waiter[w]]);
    ch := n.Abandon(w);
    es, t := AbandonRuns(v, num, s, r, w, n.View());
  }

  /** release is a failed open or the end of a stream, and the rounds of its hand-off. */
  method RunRelease(n: N.NodeSession, ch: N.DataChannel, ghost e: Event, ghost s: State, ghost num: Numbers)
    returns (ghost picks: seq<N.DataChannel>, ghost t: State)
    requires InState(n, num, s) && ch in n.known && GivesBack(s, e, num.chan[ch])
    modifies n`activeStreams, n`waiters, n.known`active, n.parked
    ensures InState(n, num, t)
    ensures Numbered(picks, num.chan) && Run(s, [e] + HandEvents(NumbersOf(picks, num.chan)), t)
  {
    ghost var v := n.View();
    picks := n.Release(ch);
    t := ReleaseRuns(v, num, s, e, ch, picks, n.View());
  }

  /** SetConfig is its store, its lock, and the rounds of its hand-off. */
  method RunSetConfig(n: N.NodeSession, max: int, ghost s: State, ghost num: Numbers)
    returns (ghost picks: seq<N.DataChannel>, ghost t: State)
    requires InState(n, num, s) && !s.handing
    modifies n`maxStreams, n`activeStreams, n`waiters, n.known`active, n.parked
    ensures InState(n, num, t)
    ensures Numbered(picks, num.chan)
    ensures Run(s, [StoreMax(max)] + ([LockConfig] + HandEvents(NumbersOf(picks, num.chan))), t)
  {
    ghost var v := n.View();
    picks := n.SetConfig(max);
    t := SetConfigRuns(v, num, s, max, picks, n.View());
  }

  /** AddChannel, for a channel that was just made, is one arrival and the rounds of its hand-off. */
  method RunAddChannel(n: N.NodeSession, ch: N.DataChannel, ghost x: nat, ghost s: State, ghost num: Numbers)
    returns (ghost picks: seq<N.DataChannel>, ghost t: State)
    requires InState(n, num, s) && !s.handing && ch !in n.known && x !in s.core.chans && ch.active == 0 && !ch.closed
    modifies n, n.known`active, ch`active, n.parked
    ensures InState(n, WithChannel(num, ch, x), t)
    ensures Numbered(picks, WithChannel(num, ch, x).chan)
    ensures Run(s, [AddChannel(x, ch.ID)] + HandEvents(NumbersOf(picks, WithChannel(num, ch, x).chan)), t)
  {
    ghost var v := n.View();
    picks := n.AddChannel(ch);
    t := AddChannelRuns(v, num, s, ch, x, ch.ID, picks, n.View());
  }

  /** RemoveChannel is one step. */
  method RunRemoveChannel(n: N.NodeSession, ch: N.DataChannel, ghost s: State, ghost num: Numbers)
    returns (ghost t: State)
    requires InState(n, num, s) && !s.handing && ch in n.known
    modifies n`channels, ch`closed
    ensures InState(n, num, t) && Run(s, [RemoveChannel(num.chan[ch])], t)
  {
    ghost var v := n.View();
    n.RemoveChannel(ch);
    RemoveChanCommutes(v, num, s.core, ch);
    OneStep(s, RemoveChannel(num.chan[ch]));
    t := Next(s, RemoveChannel(num.chan[ch]));
  }

  /** The first Close closes the session, empties the pool, and closes its channels. */
  method RunClose(n: N.NodeSession, ghost s: State, ghost num: Numbers) returns (ghost es: seq<Event>, ghost t: State)
    requires InState(n, num, s) && !s.handing && !n.done
    modifies n`done, n`channels, n.known`closed
    ensures InState(n, num, t)
    ensures Run(s, [CloseSession] + ([EmptyPool] + es), t) && forall e | e in es :: e.Die?
    ensures t.done && t.core.pool == map[] && t.core.chans.Keys == s.core.chans.Keys
    ensures forall x | x in s.core.chans ::
              t.core.chans[x] == s.core.chans[x].(dead := s.core.chans[x].dead || x in s.core.pool.Values)
  {
    ghost var v := n.View();
    n.PoolIsKnown();
    n.Close();
    es, t := CloseRuns(v, num, s);
    ShutCloses(v, num, s.core, t.core);
  }
}
