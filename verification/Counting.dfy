/** Sums and occurrence counts over sequences: what the threads of a program have left to do, have done, or
    how many slots of a table have some status. */
module Counting {

  function Total(q: seq<nat>): nat {
    if q == [] then 0 else q[0] + Total(q[1..])
  }

  lemma {:induction false} TotalUpdate(q: seq<nat>, i: nat, v: nat)
    requires i < |q|
    ensures Total(q[i := v]) == Total(q) - q[i] + v
  {
    if i == 0 {
      assert q[i := v][1..] == q[1..];
    } else {
      assert q[i := v][1..] == q[1..][i - 1 := v];
      TotalUpdate(q[1..], i - 1, v);
    }
  }

  lemma {:induction false} TotalOfConstant(n: nat, v: nat)
    ensures Total(seq(n, _ => v)) == n * v
  {
    if n > 0 {
      assert seq(n, _ => v)[1..] == seq(n - 1, _ => v);
      TotalOfConstant(n - 1, v);
    }
  }

  /** A sum of smaller terms is smaller, and equal only when all the terms are. */
  lemma {:induction false} TotalBound(p: seq<nat>, q: seq<nat>)
    requires |p| == |q| && forall i | 0 <= i < |p| :: p[i] <= q[i]
    ensures Total(p) <= Total(q)
    ensures Total(p) == Total(q) <==> p == q
  {
    if p != [] {
      TotalBound(p[1..], q[1..]);
      assert p == [p[0]] + p[1..] && q == [q[0]] + q[1..];
    }
  }

  /** What the elements are worth together. */
  function Worth<T>(q: seq<T>, rank: T -> nat): nat {
    Total(seq(|q|, i requires 0 <= i < |q| => rank(q[i])))
  }

  lemma WorthUpdate<T>(q: seq<T>, rank: T -> nat, i: nat, x: T)
    requires i < |q|
    ensures Worth(q[i := x], rank) == Worth(q, rank) - rank(q[i]) + rank(x)
  {
    var ranks := seq(|q|, k requires 0 <= k < |q| => rank(q[k]));
    assert seq(|q|, k requires 0 <= k < |q| => rank(q[i := x][k])) == ranks[i := rank(x)];
    TotalUpdate(ranks, i, rank(x));
  }

  lemma WorthOfConstant<T>(n: nat, rank: T -> nat, x: T)
    ensures Worth(seq(n, _ => x), rank) == n * rank(x)
  {
    var q := seq(n, _ => x);
    assert seq(n, i requires 0 <= i < n => rank(q[i])) == seq(n, _ => rank(x));
    TotalOfConstant(n, rank(x));
  }

  lemma TwoOccurrences<T>(q: seq<T>, i: nat, k: nat, x: T)
    requires i < |q| && k < |q| && i != k && q[i] == x && q[k] == x
    ensures multiset(q)[x] >= 2
  {
    var lo, hi := if i < k then i else k, if i < k then k else i;
    assert q == q[..lo + 1] + q[lo + 1..];
    assert q[lo] in q[..lo + 1] && q[hi] in q[lo + 1..];
    assert multiset(q) == multiset(q[..lo + 1]) + multiset(q[lo + 1..]);
  }

  lemma {:induction false} OnlyOccurrences<T>(q: seq<T>, x: T)
    ensures multiset(q)[x] <= |q|
    ensures multiset(q)[x] == |q| <==> forall i | 0 <= i < |q| :: q[i] == x
  {
    if q != [] {
      OnlyOccurrences(q[1..], x);
      assert q == [q[0]] + q[1..];
    }
  }

  function PositionsOfOthers<T(==)>(q: seq<T>, x: T): set<nat> {
    set i: nat | i < |q| && q[i] != x
  }

  /** The positions that do not hold x, and the occurrences of x, add up to the length. */
  lemma {:induction false} OtherPositions<T>(q: seq<T>, x: T)
    ensures |PositionsOfOthers(q, x)| == |q| - multiset(q)[x]
  {
    if q != [] {
      var m := |q| - 1;
      OtherPositions(q[..m], x);
      assert q == q[..m] + [q[m]];
      assert PositionsOfOthers(q, x) == PositionsOfOthers(q[..m], x) + if q[m] != x then {m as nat} else {};
    }
  }
}
