/** Counting the entries of a map, and adding up the values of a map. */
module Counting {
  import opened Basics

  /** How many keys of m carry a value that satisfies f. */
  ghost function Count<K, V>(m: map<K, V>, f: V -> bool): nat {
    |set k | k in m && f(m[k])|
  }

  lemma CountUpdate<K, V>(m: map<K, V>, k: K, v: V, f: V -> bool)
    ensures Count(m[k := v], f)
         == Count(m, f) - (if k in m && f(m[k]) then 1 else 0) + (if f(v) then 1 else 0)
  {
    var before := set x | x in m && f(m[x]);
    var m' := m[k := v];
    var after := set x | x in m' && f(m'[x]);
    if f(v) {
      assert after == before + {k};
    } else {
      assert after == before - {k};
    }
  }

  /** If f is g or h, never both, then counting f is counting g and counting h. */
  lemma CountSplit<K, V>(m: map<K, V>, f: V -> bool, g: V -> bool, h: V -> bool)
    requires forall k | k in m :: f(m[k]) == (g(m[k]) || h(m[k]))
    requires forall k | k in m :: !(g(m[k]) && h(m[k]))
    ensures Count(m, f) == Count(m, g) + Count(m, h)
  {
    var gs := set k | k in m && g(m[k]);
    var hs := set k | k in m && h(m[k]);
    assert gs !! hs;
    assert (set k | k in m && f(m[k])) == gs + hs;
  }

  lemma CountMonotone<K, V>(m: map<K, V>, f: V -> bool, g: V -> bool)
    requires forall k | k in m && f(m[k]) :: g(m[k])
    ensures Count(m, f) <= Count(m, g)
  {
    SubsetSize(set k | k in m && f(m[k]), set k | k in m && g(m[k]));
  }

  /** The sum of the values of m. */
  ghost function Sum<K>(m: map<K, int>): int
    decreases m.Keys
  {
    if m.Keys == {} then 0
    else
      var k :| k in m.Keys;
      m[k] + Sum(m - {k})
  }

  /** Any key may be taken out first. */
  lemma {:induction false} SumTakeOut<K>(m: map<K, int>, k: K)
    requires k in m
    ensures Sum(m) == m[k] + Sum(m - {k})
    decreases m.Keys
  {
    var j :| j in m.Keys && Sum(m) == m[j] + Sum(m - {j});
    if j != k {
      SumTakeOut(m - {j}, k);
      SumTakeOut(m - {k}, j);
      assert (m - {j}) - {k} == (m - {k}) - {j};
    }
  }

  lemma SumUpdate<K>(m: map<K, int>, k: K, v: int)
    ensures Sum(m[k := v]) == Sum(m) - (if k in m then m[k] else 0) + v
  {
    SumTakeOut(m[k := v], k);
    assert m[k := v] - {k} == m - {k};
    if k in m {
      SumTakeOut(m, k);
    } else {
      assert m - {k} == m;
    }
  }

  lemma {:induction false} SumZero<K>(m: map<K, int>)
    requires forall k | k in m :: m[k] == 0
    ensures Sum(m) == 0
    decreases m.Keys
  {
    if m.Keys != {} {
      var k :| k in m.Keys;
      SumTakeOut(m, k);
      SumZero(m - {k});
    }
  }

  lemma {:induction false} SumBound<K>(m: map<K, int>)
    requires forall k | k in m :: m[k] >= 0
    ensures Sum(m) >= 0
    ensures forall k | k in m :: m[k] <= Sum(m)
    decreases m.Keys
  {
    forall k | k in m
      ensures m[k] <= Sum(m)
    {
      SumTakeOut(m, k);
      SumBound(m - {k});
    }
  }

  ghost function Each<K, V>(m: map<K, V>, f: V -> int): map<K, int> {
    map k | k in m :: f(m[k])
  }

  /** The sum of f over the values of m. */
  ghost function SumOf<K, V>(m: map<K, V>, f: V -> int): int {
    Sum(Each(m, f))
  }

  lemma SumOfUpdate<K, V>(m: map<K, V>, k: K, v: V, f: V -> int)
    ensures SumOf(m[k := v], f) == SumOf(m, f) - (if k in m then f(m[k]) else 0) + f(v)
  {
    assert Each(m[k := v], f) == Each(m, f)[k := f(v)];
    SumUpdate(Each(m, f), k, f(v));
  }

  lemma SumOfTakeOut<K, V>(m: map<K, V>, k: K, f: V -> int)
    requires k in m
    ensures SumOf(m, f) == f(m[k]) + SumOf(m - {k}, f)
  {
    SumTakeOut(Each(m, f), k);
    assert Each(m, f) - {k} == Each(m - {k}, f);
  }
}
