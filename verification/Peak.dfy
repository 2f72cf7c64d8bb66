/** The peak-demand high-water mark, raised by a compare-and-swap loop from many goroutines. */
module Peak {

  /** One call of ObserveDemand(v): about to load, about to swap against `cur`, returned. */
  datatype Call = Fresh(v: int) | Loaded(v: int, cur: int) | Returned(v: int)

  datatype Event = Start(id: nat, v: int) | Load(id: nat) | Swap(id: nat)

  datatype State = State(peak: int, calls: map<nat, Call>)

  ghost predicate Enabled(s: State, e: Event) {
    match e
    case Start(id, _) => id !in s.calls
    case Load(id) => id in s.calls && s.calls[id].Fresh?
    case Swap(id) => id in s.calls && s.calls[id].Loaded?
  }

  ghost function Next(s: State, e: Event): State
    requires Enabled(s, e)
  {
    match e
    case Start(id, v) => s.(calls := s.calls[id := Fresh(v)])
    case Load(id) =>
      var v := s.calls[id].v;
      s.(calls := s.calls[id := if v <= s.peak then Returned(v) else Loaded(v, s.peak)])
    case Swap(id) =>
      var Loaded(v, cur) := s.calls[id];
      if s.peak == cur then State(v, s.calls[id := Returned(v)]) else s.(calls := s.calls[id := Fresh(v)])
  }

  ghost predicate Run(s: State, es: seq<Event>, t: State)
    decreases |es|
  {
    if es == [] then t == s else Enabled(s, es[0]) && Run(Next(s, es[0]), es[1..], t)
  }

  /** The peak is the largest of `start` and the values of the calls that have returned. */
  ghost predicate IsHighWater(start: int, s: State) {
    && start <= s.peak
    && (forall i | i in s.calls && s.calls[i].Returned? :: s.calls[i].v <= s.peak)
    && (s.peak == start || exists i :: i in s.calls && s.calls[i].Returned? && s.calls[i].v == s.peak)
  }

  ghost predicate Behind(s: State) {
    forall i | i in s.calls && s.calls[i].Loaded? :: s.calls[i].cur < s.calls[i].v
  }

  lemma HighWaterStep(start: int, s: State, e: Event)
    requires IsHighWater(start, s) && Behind(s) && Enabled(s, e)
    ensures IsHighWater(start, Next(s, e)) && Behind(Next(s, e)) && s.peak <= Next(s, e).peak
  {
    var t := Next(s, e);
    if t.peak != start {
      var i := if e.Swap? && t.peak != s.peak then e.id
               else var j :| j in s.calls && s.calls[j].Returned? && s.calls[j].v == s.peak; j;
      assert i in t.calls && t.calls[i].Returned? && t.calls[i].v == t.peak;
    }
  }

  lemma {:induction false} HighWaterRun(start: int, s: State, es: seq<Event>, t: State)
    requires IsHighWater(start, s) && Behind(s) && Run(s, es, t)
    ensures IsHighWater(start, t) && Behind(t) && s.peak <= t.peak
    decreases |es|
  {
    if es != [] {
      HighWaterStep(start, s, es[0]);
      HighWaterRun(start, Next(s, es[0]), es[1..], t);
    }
  }

  /** Under any interleaving the peak is the maximum of its start value and every value whose
      ObserveDemand has returned, and it never goes down. */
  lemma PeakIsHighWater(start: int, es: seq<Event>, s: State, more: seq<Event>, t: State)
    requires Run(State(start, map[]), es, s) && Run(s, more, t)
    ensures IsHighWater(start, s) && IsHighWater(start, t) && s.peak <= t.peak
  {
    HighWaterRun(start, State(start, map[]), es, s);
    HighWaterRun(start, s, more, t);
  }
}
