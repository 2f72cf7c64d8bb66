/** The part of a node session that its chMu lock protects, as a value: the channel pool,
    the per-channel stream counts, the limit, the queue of parked waiters and the total.

    C and W are the identities of data channels and of waiters. NodeSession.dfy runs these
    steps on objects; SlotSystem.dfy interleaves them with the life of every request. */
module SlotCore {
  import opened Basics
  import opened Counting

  /** A data channel. `dead` is "closed or smux session closed", which never goes back. */
  datatype Chan = Chan(id: int, active: int, dead: bool)

  /** A parked request's mailbox: `ready` is the one-place buffer a slot is sent into. */
  datatype Cell<C> = Cell(handed: bool, ready: Option<C>)

  datatype Core<C, W> = Core(
    pool: map<int, C>,        // the channels in service, by channel id
    chans: map<C, Chan>,      // every channel ever added, in service or not
    max: int,                 // the current limit of streams per channel
    queue: seq<W>,            // parked waiters, oldest first
    cells: map<W, Cell<C>>,   // every waiter ever parked
    total: int)               // activeStreams

  ghost predicate Wf<C, W>(s: Core<C, W>) {
    && (forall i | i in s.pool :: s.pool[i] in s.chans && s.chans[s.pool[i]].id == i)
    && Distinct(s.queue)
    && (forall w | w in s.queue :: w in s.cells && s.cells[w] == Cell(false, None))
  }

  /** c is in service and alive. */
  ghost predicate Usable<C, W>(s: Core<C, W>, c: C) {
    c in s.chans && s.chans[c].id in s.pool && s.pool[s.chans[c].id] == c && !s.chans[c].dead
  }

  ghost predicate HasRoom<C, W>(s: Core<C, W>, c: C) {
    Usable(s, c) && s.chans[c].active < s.max
  }

  /** Nothing in the pool can take another stream. */
  ghost predicate Full<C, W>(s: Core<C, W>) {
    forall c | c in s.chans :: !HasRoom(s, c)
  }

  /** c is one of the channels reserveLocked may pick: a least-loaded one with room. */
  ghost predicate CanBook<C, W>(s: Core<C, W>, c: C) {
    && HasRoom(s, c)
    && forall d | d in s.chans && HasRoom(s, d) :: s.chans[c].active <= s.chans[d].active
  }

  /** Which channels may be picked, told of the pool alone: those in it that are not dead and
      below the limit, and of them the least loaded. */
  lemma PickedFromThePool<C, W>(s: Core<C, W>, c: C)
    requires Wf(s)
    ensures s.pool.Values <= s.chans.Keys
    ensures Usable(s, c) <==> c in s.pool.Values && !s.chans[c].dead
    ensures Full(s) <==> forall d | d in s.pool.Values :: s.chans[d].dead || s.chans[d].active >= s.max
    ensures CanBook(s, c) <==>
              && c in s.pool.Values && !s.chans[c].dead && s.chans[c].active < s.max
              && forall d | d in s.pool.Values && !s.chans[d].dead :: s.chans[c].active <= s.chans[d].active
  {
    forall d | d in s.pool.Values
      ensures d in s.chans && s.chans[d].id in s.pool && s.pool[s.chans[d].id] == d
    {
      var i := KeyOf(s.pool, d);
    }
    assert forall d | Usable(s, d) :: s.pool[s.chans[d].id] in s.pool.Values;
  }

  ghost function SetActive<C, W>(s: Core<C, W>, c: C, a: int): Core<C, W>
    requires c in s.chans
  {
    s.(chans := s.chans[c := s.chans[c].(active := a)])
  }

  /** One slot on c is taken. */
  ghost function Book<C, W>(s: Core<C, W>, c: C): Core<C, W>
    requires c in s.chans
  {
    SetActive(s, c, s.chans[c].active + 1).(total := s.total + 1)
  }

  /** One slot on c is given back; the hand-off that follows is separate. */
  ghost function Unbook<C, W>(s: Core<C, W>, c: C): Core<C, W>
    requires c in s.chans
  {
    SetActive(s, c, s.chans[c].active - 1).(total := s.total - 1)
  }

  /** A slot on c goes to the waiter at the head of the queue. */
  ghost function Serve<C, W>(s: Core<C, W>, c: C): Core<C, W>
    requires c in s.chans && s.queue != []
  {
    Book(s, c).(queue := s.queue[1..], cells := s.cells[s.queue[0] := Cell(true, Some(c))])
  }

  /** A new waiter joins the tail. */
  ghost function Park<C, W>(s: Core<C, W>, w: W): Core<C, W> {
    s.(queue := s.queue + [w], cells := s.cells[w := Cell(false, None)])
  }

  ghost function Without<T>(q: seq<T>, w: T): seq<T> {
    if q == [] then [] else if q[0] == w then q[1..] else [q[0]] + Without(q[1..], w)
  }

  /** Serving the head of the queue once per pick leads from s to t. */
  ghost predicate Serves<C, W>(s: Core<C, W>, picks: seq<C>, t: Core<C, W>)
    decreases |picks|
  {
    if picks == [] then t == s
    else s.queue != [] && CanBook(s, picks[0]) && Serves(Serve(s, picks[0]), picks[1..], t)
  }

  /** handoffLocked from s ends in t: it serves until nobody waits or nothing is free. */
  ghost predicate Handoff<C, W>(s: Core<C, W>, picks: seq<C>, t: Core<C, W>) {
    Serves(s, picks, t) && (t.queue == [] || Full(t))
  }

  /** Serving takes waiters off the front, one stream each, and only channels that are alive and
      in the pool; it leaves the pool, and who is dead, alone. */
  lemma {:induction false} ServesInOrder<C, W>(s: Core<C, W>, picks: seq<C>, t: Core<C, W>)
    requires Serves(s, picks, t)
    ensures |picks| <= |s.queue| && t.queue == s.queue[|picks|..] && t.total == s.total + |picks|
    ensures t.pool == s.pool && t.max == s.max && t.chans.Keys == s.chans.Keys
    ensures forall c | c in s.chans :: t.chans[c].dead == s.chans[c].dead
    ensures forall c | c in picks :: c in s.chans && !s.chans[c].dead && c in s.pool.Values
    decreases |picks|
  {
    if picks != [] {
      ServesInOrder(Serve(s, picks[0]), picks[1..], t);
      assert s.pool[s.chans[picks[0]].id] in s.pool.Values;
    }
  }

  lemma {:induction false} ServesOneMore<C, W>(s: Core<C, W>, picks: seq<C>, t: Core<C, W>, c: C)
    requires Serves(s, picks, t) && t.queue != [] && CanBook(t, c)
    ensures Serves(s, picks + [c], Serve(t, c))
    decreases |picks|
  {
    if picks == [] {
      assert ([c])[1..] == [];
    } else {
      ServesOneMore(Serve(s, picks[0]), picks[1..], t, c);
      assert (picks + [c])[1..] == picks[1..] + [c];
    }
  }

  /** A new channel enters the pool, in place of any channel with its id. */
  ghost function AddChan<C, W>(s: Core<C, W>, c: C, chan: Chan): Core<C, W> {
    s.(pool := s.pool[chan.id := c], chans := s.chans[c := chan])
  }

  /** A channel is closed and leaves the pool, unless another one now has its id. */
  ghost function RemoveChan<C, W>(s: Core<C, W>, c: C): Core<C, W>
    requires c in s.chans
  {
    var id := s.chans[c].id;
    Kill(if id in s.pool && s.pool[id] == c then s.(pool := s.pool - {id}) else s, c)
  }

  ghost function Kill<C, W>(s: Core<C, W>, c: C): Core<C, W>
    requires c in s.chans
  {
    s.(chans := s.chans[c := s.chans[c].(dead := true)])
  }

  /** The pool is emptied and what was in it is closed. */
  ghost function Shut<C, W>(s: Core<C, W>): Core<C, W> {
    s.(pool := map[], chans := Killed(s.chans, s.pool.Values))
  }

  ghost function Killed<C>(chans: map<C, Chan>, gone: set<C>): map<C, Chan> {
    map c | c in chans :: if c in gone then chans[c].(dead := true) else chans[c]
  }

  lemma {:induction false} WithoutIsRemoval<T>(q: seq<T>, w: T, k: nat)
    requires k < |q| && q[k] == w && w !in q[..k]
    ensures Without(q, w) == q[..k] + q[k + 1..]
  {
    if k > 0 {
      assert q[0] in q[..k];
      assert forall x | x in q[1..][..k - 1] :: x in q[..k];
      WithoutIsRemoval(q[1..], w, k - 1);
      assert [q[0]] + (q[1..][..k - 1] + q[1..][k..]) == q[..k] + q[k + 1..];
    }
  }

  lemma {:induction false} WithoutAbsent<T>(q: seq<T>, w: T)
    requires w !in q
    ensures Without(q, w) == q
  {
    if q != [] {
      WithoutAbsent(q[1..], w);
    }
  }

  /** Taking a waiter out keeps everybody else, in order. */
  lemma {:induction false} WithoutKeepsOthers<T>(q: seq<T>, w: T)
    requires Distinct(q)
    ensures Distinct(Without(q, w)) && w !in Without(q, w)
    ensures forall v :: v in Without(q, w) <==> v in q && v != w
  {
    if w in q {
      var k :| 0 <= k < |q| && q[k] == w;
      WithoutIsRemoval(q, w, k);
      assert forall v | v in q && v != w :: v in q[..k] || v in q[k + 1..];
    } else {
      WithoutAbsent(q, w);
    }
  }

  lemma ServeKeepsWf<C, W>(s: Core<C, W>, c: C)
    requires Wf(s) && c in s.chans && s.queue != []
    ensures Wf(Serve(s, c))
  {
    var t := Serve(s, c);
    forall w | w in t.queue
      ensures w in t.cells && t.cells[w] == Cell(false, None)
    {
      var i :| 0 <= i < |t.queue| && t.queue[i] == w;
      assert w == s.queue[i + 1] && s.queue[0] != s.queue[i + 1];
    }
  }

  /** How many more streams each usable channel takes. */
  ghost function Spare<C, W>(s: Core<C, W>): map<C, int> {
    map c | c in s.chans && Usable(s, c) :: if s.chans[c].active < s.max then s.max - s.chans[c].active else 0
  }

  lemma BookUsesSpare<C, W>(s: Core<C, W>, c: C)
    requires HasRoom(s, c)
    ensures Sum(Spare(Book(s, c))) == Sum(Spare(s)) - 1
  {
    var t := Book(s, c);
    assert Spare(t) == Spare(s)[c := Spare(s)[c] - 1];
    SumUpdate(Spare(s), c, Spare(s)[c] - 1);
  }

  lemma FullMeansNoSpare<C, W>(s: Core<C, W>)
    ensures Full(s) <==> Sum(Spare(s)) == 0
    ensures Sum(Spare(s)) >= 0
  {
    SumBound(Spare(s));
    if Full(s) {
      forall c | c in Spare(s) ensures Spare(s)[c] == 0 { assert !HasRoom(s, c); }
      SumZero(Spare(s));
    } else {
      var c :| c in s.chans && HasRoom(s, c);
      assert Spare(s)[c] > 0;
    }
  }

  /** A hand-off serves exactly min(|queue|, spare capacity) waiters, from the front. */
  lemma {:induction false} HandoffCount<C, W>(s: Core<C, W>, picks: seq<C>, t: Core<C, W>)
    requires Wf(s) && Handoff(s, picks, t)
    ensures Wf(t)
    ensures |picks| == if |s.queue| < Sum(Spare(s)) then |s.queue| else Sum(Spare(s))
    ensures t.queue == s.queue[|picks|..]
    ensures t.total == s.total + |picks|
    ensures t.queue == [] || Full(t)
    ensures t.pool == s.pool && t.max == s.max
    decreases |picks|
  {
    FullMeansNoSpare(s);
    if picks != [] {
      var u := Serve(s, picks[0]);
      ServeKeepsWf(s, picks[0]);
      BookUsesSpare(s, picks[0]);
      assert Spare(u) == Spare(Book(s, picks[0]));
      FullMeansNoSpare(u);
      HandoffCount(u, picks[1..], t);
    }
  }

  /** The i-th waiter in line gets the i-th slot, and nobody else's mailbox changes. */
  lemma {:induction false} HandoffDelivers<C, W>(s: Core<C, W>, picks: seq<C>, t: Core<C, W>)
    requires Wf(s) && Handoff(s, picks, t)
    ensures |picks| <= |s.queue|
    ensures t.cells.Keys == s.cells.Keys
    ensures forall i | 0 <= i < |picks| :: t.cells[s.queue[i]] == Cell(true, Some(picks[i]))
    ensures forall w | w in s.cells && w !in s.queue[..|picks|] :: t.cells[w] == s.cells[w]
    decreases |picks|
  {
    if picks != [] {
      var u := Serve(s, picks[0]);
      var n := |picks|;
      ServeKeepsWf(s, picks[0]);
      HandoffDelivers(u, picks[1..], t);
      assert s.queue[..n] == [s.queue[0]] + u.queue[..n - 1];
      assert s.queue[0] !in u.queue[..n - 1];
      forall i | 0 <= i < n
        ensures t.cells[s.queue[i]] == Cell(true, Some(picks[i]))
      {
        if i > 0 { assert s.queue[i] == u.queue[i - 1] && picks[i] == picks[1..][i - 1]; }
      }
    }
  }

  /** A release on a usable channel whose count is at most the limit always serves the head. */
  lemma ReleaseServesHead<C, W>(s: Core<C, W>, c: C, picks: seq<C>, t: Core<C, W>)
    requires Wf(s) && Usable(s, c) && s.chans[c].active <= s.max && s.queue != []
    requires Handoff(Unbook(s, c), picks, t)
    ensures 1 <= |picks| <= |s.queue| && s.queue[0] in t.cells
    ensures t.cells[s.queue[0]] == Cell(true, Some(picks[0]))
    ensures t.queue == s.queue[|picks|..]
  {
    var u := Unbook(s, c);
    assert HasRoom(u, c);
    HandoffCount(u, picks, t);
    HandoffDelivers(u, picks, t);
    assert t.cells[u.queue[0]] == Cell(true, Some(picks[0]));
  }

  // --- Least-loaded balance ---

  /** Nothing but direct reservations from s leads to t, each on a least-loaded channel. */
  ghost predicate Reservations<C, W>(s: Core<C, W>, picks: seq<C>, t: Core<C, W>)
    decreases |picks|
  {
    if picks == [] then t == s
    else CanBook(s, picks[0]) && Reservations(Book(s, picks[0]), picks[1..], t)
  }

  ghost function UsableSet<C, W>(s: Core<C, W>): set<C> {
    set c | c in s.chans && Usable(s, c)
  }

  /** The usable channels carry q or q + 1 streams each, and r of them carry q + 1. */
  ghost predicate Level<C, W>(s: Core<C, W>, q: int, r: int) {
    && (forall c | c in UsableSet(s) :: s.chans[c].active == q || s.chans[c].active == q + 1)
    && r == |set c | c in UsableSet(s) && s.chans[c].active == q + 1|
    && r < |UsableSet(s)|
  }

  /** At a level, somebody is on the lower step. */
  lemma LowExists<C, W>(s: Core<C, W>, q: int, r: int) returns (c: C)
    requires Level(s, q, r)
    ensures c in UsableSet(s) && s.chans[c].active == q
  {
    var high := set d | d in UsableSet(s) && s.chans[d].active == q + 1;
    if UsableSet(s) <= high { SubsetSize(UsableSet(s), high); }
    c :| c in UsableSet(s) && c !in high;
  }

  lemma LevelBook<C, W>(s: Core<C, W>, q: int, r: int, c: C)
    requires Level(s, q, r) && CanBook(s, c)
    ensures UsableSet(Book(s, c)) == UsableSet(s)
    ensures if r + 1 < |UsableSet(s)| then Level(Book(s, c), q, r + 1) else Level(Book(s, c), q + 1, 0)
  {
    var t := Book(s, c);
    var all := UsableSet(s);
    var high := set d | d in all && s.chans[d].active == q + 1;
    var low := LowExists(s, q, r);
    assert c in all && s.chans[c].active <= s.chans[low].active by {
      assert s.chans[c].active > q ==> HasRoom(s, low);
    }
    assert UsableSet(t) == all;
    assert (set d | d in all && t.chans[d].active == q + 1) == high + {c};
    if r + 1 == |all| {
      EqualSize(high + {c}, all);
      assert forall d | d in all :: d in high + {c} && t.chans[d].active == q + 1;
      assert (set d | d in all && t.chans[d].active == q + 2) == {};
    }
  }

  /** Reservations climb one level at a time and never pass the limit. */
  lemma {:induction false} LevelRun<C, W>(s: Core<C, W>, q: int, r: int, picks: seq<C>, t: Core<C, W>)
    returns (q': int, r': int)
    requires Level(s, q, r) && 0 <= r && Reservations(s, picks, t)
    requires forall c | c in UsableSet(s) :: s.chans[c].active <= s.max
    ensures UsableSet(t) == UsableSet(s) && t.max == s.max
    ensures Level(t, q', r') && 0 <= r'
    ensures |UsableSet(s)| * q' + r' == |UsableSet(s)| * q + r + |picks|
    ensures forall c | c in UsableSet(t) :: t.chans[c].active <= t.max
    decreases |picks|
  {
    var k := |UsableSet(s)|;
    if picks == [] {
      q', r' := q, r;
    } else {
      var u := Book(s, picks[0]);
      LevelBook(s, q, r, picks[0]);
      if r + 1 < k {
        q', r' := LevelRun(u, q, r + 1, picks[1..], t);
      } else {
        q', r' := LevelRun(u, q + 1, 0, picks[1..], t);
        assert k * (q + 1) == k * q + k;
      }
    }
  }

  /** Where the reservations from an idle pool end up: at level m / k, m % k. */
  lemma LevelFromIdle<C, W>(s: Core<C, W>, k: nat, picks: seq<C>, t: Core<C, W>) returns (q: int, r: int)
    requires k == |UsableSet(s)| && k > 0 && s.max >= 0
    requires forall c | c in UsableSet(s) :: s.chans[c].active == 0
    requires Reservations(s, picks, t)
    ensures UsableSet(t) == UsableSet(s) && t.max == s.max
    ensures 0 <= r < k && |picks| == k * q + r
    ensures q <= t.max && (q == t.max ==> r == 0)
    ensures Full(t) <==> q == t.max
    ensures forall c | c in UsableSet(t) :: t.chans[c].active == q || (r > 0 && t.chans[c].active == q + 1)
  {
    assert (set c | c in UsableSet(s) && s.chans[c].active == 1) == {};
    q, r := LevelRun(s, 0, 0, picks, t);
    LevelExtent(t, q, r);
  }

  /** From an idle pool of k usable channels with limit M, after any m reservations every
      load is floor(m/k) or ceil(m/k), and the pool is full exactly when m == k * M. */
  lemma BalancedLoads<C, W>(s: Core<C, W>, k: nat, picks: seq<C>, t: Core<C, W>)
    requires k == |UsableSet(s)| && k > 0 && s.max >= 0
    requires forall c | c in UsableSet(s) :: s.chans[c].active == 0
    requires Reservations(s, picks, t)
    ensures UsableSet(t) == UsableSet(s)
    ensures forall c | c in UsableSet(s) ::
              t.chans[c].active == |picks| / k || t.chans[c].active == (|picks| + k - 1) / k
    ensures |picks| <= k * s.max
    ensures Full(t) <==> |picks| == k * s.max
  {
    var q, r := LevelFromIdle(s, k, picks, t);
    FloorAndCeiling(|picks|, k, q, r);
    AtTheLimit(|picks|, k, q, r, s.max);
    var low, high := |picks| / k, (|picks| + k - 1) / k;
    assert low == q && (r > 0 ==> high == q + 1);
  }

  /** What a level says about the loads and about being full. */
  lemma LevelExtent<C, W>(t: Core<C, W>, q: int, r: int)
    requires Level(t, q, r) && 0 <= r
    requires forall c | c in UsableSet(t) :: t.chans[c].active <= t.max
    ensures r == 0 ==> forall c | c in UsableSet(t) :: t.chans[c].active == q
    ensures q <= t.max && (q == t.max ==> r == 0)
    ensures Full(t) <==> q == t.max
  {
    var all := UsableSet(t);
    var high := set c | c in all && t.chans[c].active == q + 1;
    var low := LowExists(t, q, r);
    if r == 0 {
      forall c | c in all ensures t.chans[c].active == q { assert c !in high; }
    }
    if q == t.max {
      assert high == {};
      forall d | d in t.chans ensures !HasRoom(t, d) {
        if Usable(t, d) { assert d in all; }
      }
    } else {
      assert HasRoom(t, low);
    }
  }

  lemma FloorAndCeiling(m: int, k: int, q: int, r: int)
    requires 0 <= r < k && m == k * q + r
    ensures m / k == q
    ensures (m + k - 1) / k == if r == 0 then q else q + 1
  {
    DivUnique(m, k, q, r);
    if r == 0 {
      DivUnique(m + k - 1, k, q, k - 1);
    } else {
      assert k * (q + 1) == k * q + k;
      DivUnique(m + k - 1, k, q + 1, r - 1);
    }
  }

  lemma AtTheLimit(m: int, k: int, q: int, r: int, max: int)
    requires 0 <= r < k && m == k * q + r && q <= max && (q == max ==> r == 0)
    ensures m <= k * max
    ensures m == k * max <==> q == max
  {
    if q < max {
      assert k * (q + 1) == k * q + k;
      MulMonotone(k, q + 1, max);
    }
  }

  lemma DivUnique(n: int, k: int, q: int, r: int)
    requires 0 <= r < k && n == k * q + r
    ensures n / k == q
  {
    var d := n / k - q;
    assert k * d == r - n % k;
    if d >= 1 { MulMonotone(k, 1, d); }
    if d <= -1 { MulMonotone(k, d, -1); }
  }

  lemma MulMonotone(k: nat, a: int, b: int)
    requires a <= b
    ensures k * a <= k * b
  {
    assert k * (b - a) >= 0;
  }
}
