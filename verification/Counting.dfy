/** Sums over sequences and the pigeonhole facts the quorum arguments rest on. */
module Counting {

  function Sum<T>(s: seq<T>, f: T -> nat): nat {
    if s == [] then 0 else Sum(s[..|s| - 1], f) + f(s[|s| - 1])
  }

  lemma SumAppend<T>(s: seq<T>, x: T, f: T -> nat)
    ensures Sum(s + [x], f) == Sum(s, f) + f(x)
  {
    assert (s + [x])[..|s|] == s;
  }

  /** Replacing one element changes the sum by exactly the difference. */
  lemma {:induction false} SumUpdate<T>(s: seq<T>, i: nat, x: T, f: T -> nat)
    requires i < |s|
    ensures Sum(s[i := x], f) + f(s[i]) == Sum(s, f) + f(x)
  {
    var k := |s| - 1;
    if i == k {
      assert s[i := x][..k] == s[..k];
    } else {
      SumUpdate(s[..k], i, x, f);
      assert s[i := x][..k] == s[..k][i := x];
    }
  }

  lemma {:induction false} SumAtLeastOne<T>(s: seq<T>, i: nat, f: T -> nat)
    requires i < |s|
    ensures Sum(s, f) >= f(s[i])
  {
    if i < |s| - 1 {
      SumAtLeastOne(s[..|s| - 1], i, f);
    }
  }

  /** Two different elements are both counted. */
  lemma {:induction false} SumAtLeastTwo<T>(s: seq<T>, i: nat, j: nat, f: T -> nat)
    requires i < j < |s|
    ensures Sum(s, f) >= f(s[i]) + f(s[j])
  {
    if j == |s| - 1 {
      SumAtLeastOne(s[..j], i, f);
    } else {
      SumAtLeastTwo(s[..|s| - 1], i, j, f);
    }
  }

  lemma {:induction false} SumZero<T>(s: seq<T>, f: T -> nat)
    requires forall i :: 0 <= i < |s| ==> f(s[i]) == 0
    ensures Sum(s, f) == 0
  {
    if s != [] {
      SumZero(s[..|s| - 1], f);
    }
  }

  lemma {:induction false} SumMonotone<T>(s: seq<T>, r: seq<T>, f: T -> nat)
    requires |s| == |r| && forall i :: 0 <= i < |s| ==> f(s[i]) <= f(r[i])
    ensures Sum(s, f) <= Sum(r, f)
  {
    if s != [] {
      SumMonotone(s[..|s| - 1], r[..|r| - 1], f);
    }
  }

  function Ones<T>(s: seq<T>, f: T -> nat): set<nat> {
    set i: nat | i < |s| && f(s[i]) == 1
  }

  /** Of ones and zeros the sum is the number of ones. */
  lemma {:induction false} SumOfOnes<T>(s: seq<T>, f: T -> nat)
    requires forall i :: 0 <= i < |s| ==> f(s[i]) <= 1
    ensures Sum(s, f) == |Ones(s, f)|
  {
    if s == [] {
      assert Ones(s, f) == {};
    } else {
      var k := |s| - 1;
      SumOfOnes(s[..k], f);
      assert Ones(s, f) == Ones(s[..k], f) + (if f(s[k]) == 1 then {k} else {});
    }
  }

  /** Dropping the first element takes away exactly its share. */
  lemma {:induction false} SumTail<T>(s: seq<T>, f: T -> nat)
    requires s != []
    ensures Sum(s, f) == f(s[0]) + Sum(s[1..], f)
  {
    var k := |s| - 1;
    if k == 0 {
      assert s[..0] == [];
    } else {
      SumTail(s[..k], f);
      assert s[..k][1..] == s[1..][..k - 1];
    }
  }

  /** The node numbers 0..n-1. */
  function Nodes(n: nat): (r: set<nat>)
    ensures forall x: nat :: x in r <==> x < n
  {
    if n == 0 then {} else Nodes(n - 1) + {n - 1}
  }

  lemma {:induction false} NodesSize(n: nat)
    ensures |Nodes(n)| == n
  {
    if n > 0 {
      NodesSize(n - 1);
    }
  }

  lemma {:induction false} SubsetSize<T>(a: set<T>, b: set<T>)
    requires a <= b
    ensures |a| <= |b|
  {
    if a != {} {
      var x :| x in a;
      SubsetSize(a - {x}, b - {x});
    }
  }

  /** Disjoint sets of nodes together have at most n members. */
  lemma DisjointFit(n: nat, a: set<nat>, b: set<nat>)
    requires a <= Nodes(n) && b <= Nodes(n) && a !! b
    ensures |a| + |b| <= n
  {
    NodesSize(n);
    assert |a + b| == |a| + |b|;
    SubsetSize(a + b, Nodes(n));
  }

  /** Two sets of nodes that together exceed n share a node. */
  lemma Pigeonhole(n: nat, a: set<nat>, b: set<nat>) returns (x: nat)
    requires a <= Nodes(n) && b <= Nodes(n)
    requires |a| + |b| > n
    ensures x in a && x in b
  {
    if a !! b {
      DisjointFit(n, a, b);
    }
    x :| x in a && x in b;
  }
}
