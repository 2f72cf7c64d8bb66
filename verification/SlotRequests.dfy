/** What the scheduler promises a request, rather than one parking of it: its queue timer, its
    place in line, and the limit. Each can fail, and exactly when is stated. */
module SlotRequests {
  import opened Basics
  import opened Counting
  import opened Outcomes
  import opened SlotCore
  import opened SlotSystem
  import opened SlotInvariant
  import opened SlotTheorems

  // --- The queue timer ---

  /** Somewhere in the run r's open failed when its queue timer had already fired. */
  ghost predicate Reopened(s: State, es: seq<Event>, r: nat)
    decreases |es|
  {
    && es != [] && Enabled(s, es[0])
    && ((es[0] == OpenFail(r) && r in s.fired) || Reopened(Next(s, es[0]), es[1..], r))
  }

  /** After the timer, r is on its way out or has its slot, unless its open failed since. */
  ghost predicate Timed(s: State, r: nat, reopened: bool) {
    && (reopened ==> r in s.fired)
    && (r in s.fired ==> r in s.reqs)
    && (r in s.fired && !reopened ==> !s.reqs[r].Arrived? && !s.reqs[r].Parked? && !s.reqs[r].Dropping?)
  }

  lemma TimedStep(s: State, e: Event, r: nat, reopened: bool)
    requires Timed(s, r, reopened) && Enabled(s, e)
    ensures Timed(Next(s, e), r, reopened || (e == OpenFail(r) && r in s.fired))
  {
    OneChange(s, e);
  }

  lemma {:induction false} TimedRun(s: State, es: seq<Event>, t: State, r: nat, reopened: bool)
    requires Timed(s, r, reopened) && Run(s, es, t)
    ensures Timed(t, r, reopened || Reopened(s, es, r))
    decreases |es|
  {
    if es != [] {
      TimedStep(s, es[0], r, reopened);
      TimedRun(Next(s, es[0]), es[1..], t, r, reopened || (es[0] == OpenFail(r) && r in s.fired));
    }
  }

  /** A parked request still has its queue timer if and only if its open has not failed since
      the timer fired. So queue_timeout bounds the wait of every request whose opens succeed. */
  lemma TimerProtects(max: int, es: seq<Event>, t: State, r: nat)
    requires Run(Init(max), es, t) && At(t, r) && t.reqs[r].Parked?
    ensures Enabled(t, GiveUp(r, TimedOut)) <==> !Reopened(Init(max), es, r)
  {
    TimedRun(Init(max), es, t, r, false);
  }

  // --- The place in line ---

  ghost predicate HasTicket(s: State, r: nat) {
    exists w :: w in s.owner && s.owner[w] == r
  }

  ghost predicate OneTicket(s: State, r: nat) {
    forall v, w | v in s.owner && w in s.owner && s.owner[v] == r && s.owner[w] == r :: v == w
  }

  /** Somewhere in the run r's open failed when it had already parked. */
  ghost predicate LostPlace(s: State, es: seq<Event>, r: nat)
    decreases |es|
  {
    && es != [] && Enabled(s, es[0])
    && ((es[0] == OpenFail(r) && HasTicket(s, r)) || LostPlace(Next(s, es[0]), es[1..], r))
  }

  ghost predicate Waits(s: State, r: nat) {
    r in s.reqs && (s.reqs[r].Parked? || s.reqs[r].Leaving? || s.reqs[r].Collecting?)
  }

  /** A request has one ticket until it loses its place; when it waits again it has another. */
  ghost predicate InPlace(s: State, r: nat, lost: bool) {
    && (HasTicket(s, r) ==> r in s.reqs)
    && (lost ==> HasTicket(s, r))
    && (!lost ==> OneTicket(s, r))
    && (!lost && r in s.reqs && (s.reqs[r].Arrived? || s.reqs[r].Dropping?) ==> !HasTicket(s, r))
    && (lost && Waits(s, r) ==> !OneTicket(s, r))
  }

  lemma JoinTailInPlace(s: State, q: nat, r: nat, lost: bool)
    requires InPlace(s, r, lost) && Enabled(s, JoinTail(q)) && NextTicket(s) !in s.owner
    ensures InPlace(Next(s, JoinTail(q)), r, lost)
  {
    var t := Next(s, JoinTail(q));
    assert t.owner == s.owner[NextTicket(s) := q] && t.reqs == s.reqs[q := Parked(NextTicket(s))];
    if q == r {
      assert NextTicket(s) in t.owner && t.owner[NextTicket(s)] == r;
      if lost {
        var w :| w in s.owner && s.owner[w] == r;
        assert w in t.owner && t.owner[w] == r && w != NextTicket(s);
      }
    } else {
      assert forall w :: (w in t.owner && t.owner[w] == r) <==> (w in s.owner && s.owner[w] == r);
      assert HasTicket(t, r) <==> HasTicket(s, r);
      assert OneTicket(t, r) <==> OneTicket(s, r);
    }
  }

  lemma OnlyParkingGivesTickets(s: State, e: Event)
    requires Enabled(s, e) && !e.JoinTail?
    ensures Next(s, e).owner == s.owner
  {
  }

  /** Where a request can get to in a step other than parking. */
  lemma PhaseMoves(s: State, e: Event, r: nat)
    requires Enabled(s, e) && !e.JoinTail?
    ensures r in s.reqs ==> r in Next(s, e).reqs
    ensures Waits(Next(s, e), r) ==> Waits(s, r)
    ensures r in Next(s, e).reqs && Next(s, e).reqs[r].Dropping? ==>
            e == OpenFail(r) || (r in s.reqs && s.reqs[r].Dropping?)
    ensures r in s.reqs && Next(s, e).reqs[r].Arrived? ==> s.reqs[r].Arrived? || s.reqs[r].Dropping?
  {
    OneChange(s, e);
  }

  lemma InPlaceStep(s: State, e: Event, r: nat, lost: bool)
    requires InPlace(s, r, lost) && Enabled(s, e) && NextTicket(s) !in s.owner
    ensures InPlace(Next(s, e), r, lost || (e == OpenFail(r) && HasTicket(s, r)))
  {
    if e.JoinTail? {
      JoinTailInPlace(s, e.r, r, lost);
    } else {
      OnlyParkingGivesTickets(s, e);
      PhaseMoves(s, e, r);
      assert HasTicket(Next(s, e), r) <==> HasTicket(s, r);
      assert OneTicket(Next(s, e), r) <==> OneTicket(s, r);
      if e == OpenFail(r) { assert !Waits(Next(s, e), r); }
    }
  }

  lemma {:induction false} InPlaceRun(s: State, es: seq<Event>, t: State, r: nat, lost: bool)
    requires Inv(s) && InPlace(s, r, lost) && Run(s, es, t)
    ensures InPlace(t, r, lost || LostPlace(s, es, r))
    decreases |es|
  {
    if es != [] {
      assert NextTicket(s) !in s.owner;
      InPlaceStep(s, es[0], r, lost);
      InvStep(s, es[0]);
      InPlaceRun(Next(s, es[0]), es[1..], t, r, lost || (es[0] == OpenFail(r) && HasTicket(s, r)));
    }
  }

  lemma PlaceReached(max: int, es: seq<Event>, t: State, r: nat)
    requires Run(Init(max), es, t)
    ensures InPlace(t, r, LostPlace(Init(max), es, r))
  {
    InitInv(max);
    InPlaceRun(Init(max), es, t, r, false);
  }

  lemma {:induction false} LostPlaceIsOpenFail(s: State, es: seq<Event>, r: nat)
    requires LostPlace(s, es, r)
    ensures OpenFail(r) in es
    decreases |es|
  {
    if es[0] != OpenFail(r) {
      LostPlaceIsOpenFail(Next(s, es[0]), es[1..], r);
      assert es == [es[0]] + es[1..];
    }
  }

  /** A waiting request waits in the place it first parked in if and only if no open of its own
      has failed since; and no request ever has a second place otherwise. */
  lemma KeepsItsPlace(max: int, es: seq<Event>, t: State, r: nat)
    requires Run(Init(max), es, t)
    ensures Waits(t, r) ==> (OneTicket(t, r) <==> !LostPlace(Init(max), es, r))
    ensures !OneTicket(t, r) ==> LostPlace(Init(max), es, r)
    ensures LostPlace(Init(max), es, r) ==> OpenFail(r) in es
  {
    PlaceReached(max, es, t, r);
    if LostPlace(Init(max), es, r) {
      LostPlaceIsOpenFail(Init(max), es, r);
    }
  }

  /** First come, first served, per request: once a slot went to a ticket b, every request that
      parked before b and did not lose its place has been served before it or gave up, and does
      not wait any more. */
  lemma FirstComeFirstServed(max: int, es: seq<Event>, t: State, r: nat, a: nat, j: nat)
    requires Run(Init(max), es, t) && !LostPlace(Init(max), es, r)
    requires a in t.owner && t.owner[a] == r && j < |t.served| && a < t.served[j]
    ensures a in t.served[..j] || a in t.gone
    ensures forall w | w in t.core.queue :: w in t.owner && t.owner[w] != r
  {
    NoOvertaking(max, es, t, j, a);
    PlaceReached(max, es, t, r);
    Reached(max, es, t);
    assert t.served[j] in t.served;
    forall w | w in t.core.queue
      ensures w in t.owner && t.owner[w] != r
    {
      assert w in t.core.cells && w > t.served[j];
    }
  }

  // --- The limit ---

  /** No channel that carries anything is above the limit. */
  ghost predicate WithinLimit(s: State) {
    forall c | c in s.core.chans :: s.core.chans[c].active <= s.core.max || s.core.chans[c].active <= 0
  }

  /** e stores a limit below what some channel carries. */
  ghost predicate Undercuts(s: State, e: Event) {
    e.StoreMax? && exists c :: c in s.core.chans && s.core.chans[c].active > e.max && s.core.chans[c].active > 0
  }

  /** A step leaves the limit respected if and only if it does not undercut it. */
  lemma OnlyALowerLimitUndercuts(s: State, e: Event)
    requires WithinLimit(s) && Enabled(s, e)
    ensures WithinLimit(Next(s, e)) <==> !Undercuts(s, e)
  {
    var t := Next(s, e);
    if e.StoreMax? {
      assert t.core.chans == s.core.chans && t.core.max == e.max;
    } else {
      forall c | c in t.core.chans
        ensures t.core.chans[c].active <= t.core.max || t.core.chans[c].active <= 0
      {
        assert c in s.core.chans ==> t.core.chans[c].active <= s.core.chans[c].active || CanBook(s.core, c);
      }
    }
  }

  /** A channel above the limit takes nothing more: its count only falls until it is within. */
  lemma AboveTheLimitDrains(s: State, e: Event, c: nat)
    requires Enabled(s, e) && c in s.core.chans && s.core.chans[c].active > s.core.max
    ensures c in Next(s, e).core.chans && Next(s, e).core.chans[c].active <= s.core.chans[c].active
  {
    OneLoad(s, e);
    if Loaded(s, e) == Some(c) {
      assert !CanBook(s.core, c);
    }
  }

  ghost predicate NeverUndercut(s: State, es: seq<Event>)
    decreases |es|
  {
    es == [] || (Enabled(s, es[0]) && !Undercuts(s, es[0]) && NeverUndercut(Next(s, es[0]), es[1..]))
  }

  /** The limit holds throughout every run that never stores one below what is carried. */
  lemma {:induction false} LimitHolds(s: State, es: seq<Event>, t: State)
    requires WithinLimit(s) && Run(s, es, t) && NeverUndercut(s, es)
    ensures WithinLimit(t)
    decreases |es|
  {
    if es != [] {
      OnlyALowerLimitUndercuts(s, es[0]);
      LimitHolds(Next(s, es[0]), es[1..], t);
    }
  }
}
