/** Node counts and quorum sizes of a lock group (dsync.go). */
module Quorum {
  import opened Counting

  datatype Mode = Write | Read

  /** Two locks on one resource conflict unless both are read locks. */
  predicate Conflict(a: Mode, b: Mode) {
    a.Write? || b.Write?
  }

  function WriteQuorum(n: nat): nat { n / 2 + 1 }

  /** Rounded up: one more than n / 2 when n is odd. */
  function ReadQuorum(n: nat): nat { (n + 1) / 2 }

  function QuorumOf(n: nat, mode: Mode): nat {
    if mode.Write? then WriteQuorum(n) else ReadQuorum(n)
  }

  lemma QuorumSizes(n: nat, a: Mode, b: Mode)
    requires n >= 2
    ensures 1 <= QuorumOf(n, a) <= n
    ensures QuorumOf(n, a) + QuorumOf(n, b) > n <==> Conflict(a, b) || n % 2 == 1
    ensures ReadQuorum(n) + WriteQuorum(n) == n + 1
  {
  }

  /** Every two quorums of conflicting modes share a node, for every node count. */
  lemma ConflictingQuorumsMeet(n: nat, a: Mode, b: Mode, first: set<nat>, second: set<nat>) returns (x: nat)
    requires n >= 2 && Conflict(a, b)
    requires first <= Nodes(n) && |first| >= QuorumOf(n, a)
    requires second <= Nodes(n) && |second| >= QuorumOf(n, b)
    ensures x in first && x in second
  {
    QuorumSizes(n, a, b);
    x := Pigeonhole(n, first, second);
  }

  /** The read quorum cannot be one smaller: disjoint sets would then exist. */
  lemma QuorumsAreTight(n: nat) returns (readers: set<nat>, writers: set<nat>)
    requires n >= 2
    ensures readers <= Nodes(n) && writers <= Nodes(n) && readers !! writers
    ensures |readers| == ReadQuorum(n) - 1 && |writers| == WriteQuorum(n)
  {
    QuorumSizes(n, Read, Write);
    writers := Nodes(WriteQuorum(n));
    readers := Nodes(n) - writers;
    NodesSize(n);
    NodesSize(WriteQuorum(n));
    assert readers + writers == Nodes(n);
  }

  /** An owner of a lock group. The clients are kept as opaque handles. */
  class Dsync<Client(==)> {
    var dNodeCount: nat
    var restClnts: seq<Client>
    var dquorum: nat
    var dquorumReads: nat

    ghost predicate Valid()
      reads this
    {
      && 2 <= dNodeCount <= 32
      && |restClnts| == dNodeCount
      && dquorum == WriteQuorum(dNodeCount)
      && dquorumReads == ReadQuorum(dNodeCount)
    }

    constructor (clients: seq<Client>)
      requires 2 <= |clients| <= 32
      ensures Valid() && restClnts == clients
    {
      dNodeCount := |clients|;
      dquorum := |clients| / 2 + 1;
      var half := |clients| as real / 2.0;
      var up := -(-half).Floor;
      CeilingOfHalf(|clients|);
      dquorumReads := up;
      restClnts := clients;
    }
  }

  /** Rounding n / 2.0 upwards is the integer quotient of n + 1. */
  lemma CeilingOfHalf(n: nat)
    ensures -(-(n as real / 2.0)).Floor == ReadQuorum(n)
  {
    var q := ReadQuorum(n);
    assert n == 2 * q || n == 2 * q - 1;
    assert -(n as real / 2.0) >= -(q as real) && -(n as real / 2.0) < -(q as real) + 1.0;
  }

  datatype NewResult<Client(==)> =
    | Created(ds: Dsync<Client>)
    | TooFewNodes
    | TooManyNodes

  method New<Client(==)>(clients: seq<Client>) returns (r: NewResult<Client>)
    ensures r.TooFewNodes? <==> |clients| < 2
    ensures r.TooManyNodes? <==> |clients| > 32
    ensures r.Created? ==> fresh(r.ds) && r.ds.Valid() && r.ds.restClnts == clients
  {
    if |clients| < 2 {
      return TooFewNodes;
    } else if |clients| > 32 {
      return TooManyNodes;
    }
    var ds := new Dsync(clients);
    r := Created(ds);
  }
}
