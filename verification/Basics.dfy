/** Options, lists without repetition, and counting by sets. */
module Basics {

  datatype Option<+T> = None | Some(value: T)

  ghost predicate Distinct<T>(s: seq<T>) {
    forall i, j :: 0 <= i < j < |s| ==> s[i] != s[j]
  }

  ghost predicate Increasing(q: seq<nat>) {
    forall i, j :: 0 <= i < j < |q| ==> q[i] < q[j]
  }

  lemma AppendDistinct<T>(q: seq<T>, x: T)
    requires Distinct(q) && x !in q
    ensures Distinct(q + [x])
    ensures forall y :: y in q + [x] <==> y in q || y == x
  {
    var q' := q + [x];
    assert q'[|q|] == x;
    assert forall i | 0 <= i < |q| :: q'[i] == q[i];
  }

  lemma AppendIncreasing(q: seq<nat>, p: nat)
    requires Increasing(q) && forall x | x in q :: x < p
    ensures Increasing(q + [p])
    ensures forall x :: x in q + [p] <==> x in q || x == p
  {
    var q' := q + [p];
    forall i, j | 0 <= i < j < |q'|
      ensures q'[i] < q'[j]
    {
      if j == |q| { assert q[i] in q; }
    }
    assert q'[|q|] == p;
    assert forall i | 0 <= i < |q| :: q'[i] == q[i];
  }

  /** x has a place in the list before one of y. */
  ghost predicate Before<T>(order: seq<T>, x: T, y: T) {
    exists a, b :: 0 <= a < b < |order| && order[a] == x && order[b] == y
  }

  /** The elements of out come from the list order, and in its order. */
  ghost predicate Follows<T>(out: seq<T>, order: seq<T>) {
    (forall x | x in out :: x in order) && forall i, j | 0 <= i < j < |out| :: Before(order, out[i], out[j])
  }

  lemma BeforeMore<T>(order: seq<T>, x: T, y: T, z: T)
    ensures Before(order, x, y) ==> Before(order + [z], x, y)
    ensures x in order ==> Before(order + [z], x, z)
  {
    var more := order + [z];
    if a, b :| 0 <= a < b < |order| && order[a] == x && order[b] == y {
      assert more[a] == x && more[b] == y;
    }
    if a :| 0 <= a < |order| && order[a] == x {
      assert more[a] == x && more[|order|] == z;
    }
  }

  lemma FollowsMore<T>(out: seq<T>, order: seq<T>, x: T)
    requires Follows(out, order)
    ensures Follows(out, order + [x]) && Follows(out + [x], order + [x])
  {
    forall i, j | 0 <= i < j < |out|
      ensures Before(order + [x], out[i], out[j])
    {
      BeforeMore(order, out[i], out[j], x);
    }
    forall i | 0 <= i < |out|
      ensures Before(order + [x], out[i], x)
    {
      assert out[i] in order;
      BeforeMore(order, out[i], x, x);
    }
    assert forall i | 0 <= i < |out| :: (out + [x])[i] == out[i];
  }

  lemma SubsetSize<T>(a: set<T>, b: set<T>)
    requires a <= b
    ensures |a| <= |b|
  {
    assert b == a + (b - a);
  }

  lemma EqualSize<T>(a: set<T>, b: set<T>)
    requires a <= b && |a| == |b|
    ensures a == b
  {
    assert b == a + (b - a);
  }

  /** Every value of a map has a key. */
  lemma KeyOf<K, V>(m: map<K, V>, v: V) returns (k: K)
    requires v in m.Values
    ensures k in m && m[k] == v
  {
    k :| k in m && m[k] == v;
  }
}
