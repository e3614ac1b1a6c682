/** Majorities of one set meet. */
module Quorums {
  import opened Types
  import opened NodeState
  import opened Cluster
  import opened Invariant

  lemma QuorumsMeet(s: State, q: set<Id>, r: set<Id>) returns (n: Id)
    requires IsQuorum(s, q) && IsQuorum(s, r)
    ensures n in q && n in r
  {
    if q * r == {} {
      assert |q + r| == |q| + |r|;
      SubsetSize(q + r, s.nodes.Keys);
      assert false;
    }
    n :| n in q * r;
  }

  lemma {:induction false} SubsetSize<T>(a: set<T>, b: set<T>)
    requires a <= b
    ensures |a| <= |b|
  {
    if a != {} {
      var x :| x in a;
      SubsetSize(a - {x}, b - {x});
    }
  }

  /** A list without repetition has as many elements as its set. */
  lemma {:induction false} DistinctSize(peers: seq<Id>)
    requires Distinct(peers)
    ensures |set p | p in peers| == |peers|
  {
    if peers != [] {
      var rest := peers[1..];
      DistinctSize(rest);
      assert (set p | p in peers) == (set p | p in rest) + {peers[0]};
    }
  }

  /** A node's majority is more than half of the cluster. */
  lemma MajorityIsQuorum(s: State, n: Id, q: set<Id>)
    requires Config(s) && n in s.nodes && q <= s.nodes.Keys && |q| >= Majority(s.nodes[n])
    ensures IsQuorum(s, q)
  {
    var peers := s.nodes[n].peers;
    DistinctSize(peers);
    assert s.nodes.Keys == (set p | p in peers) + {n};
  }
}
