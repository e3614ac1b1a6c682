/** The leader's commit rule: what it counts is a quorum that has confirmed the entry. */
module CommitRule {
  import opened Types
  import opened NodeState
  import opened Cluster
  import opened Invariant
  import opened Quorums

  /** The peers known to hold an entry. */
  function Holders(peers: seq<Id>, matchIndex: map<Id, nat>, index: nat): (holders: set<Id>)
    ensures forall p :: p in holders <==> p in peers && Lookup(matchIndex, p) >= index
  {
    if peers == [] then {}
    else
      var rest := Holders(peers[1..], matchIndex, index);
      if Lookup(matchIndex, peers[0]) >= index then rest + {peers[0]} else rest
  }

  lemma {:induction false} CountIsSize(peers: seq<Id>, matchIndex: map<Id, nat>, index: nat)
    requires Distinct(peers)
    ensures CountHolding(peers, matchIndex, index) == |Holders(peers, matchIndex, index)|
  {
    if peers != [] {
      CountIsSize(peers[1..], matchIndex, index);
      assert peers[0] !in peers[1..];
    }
  }

  lemma PeersOfNode(s: State, l: Id)
    requires Config(s) && l in s.nodes
    ensures Distinct(s.nodes[l].peers) && l !in s.nodes[l].peers
    ensures forall p :: p in s.nodes[l].peers ==> p in s.nodes
  {}

  /** The leader and the peers it counts are a quorum that has confirmed the entry. */
  lemma CountedQuorum(s: State, n: Node, index: nat)
    requires Config(s) && n.id in s.nodes && BookOK(s, n) && n.peers == s.nodes[n.id].peers
    requires Replicas(n, index) >= Majority(n) && index <= Acked(s, n.id, n.currentTerm)
    ensures ChosenBy(s, n.currentTerm, index, Holders(n.peers, n.matchIndex, index) + {n.id})
  {
    hide Config, IsQuorum;
    PeersOfNode(s, n.id);
    var held := Holders(n.peers, n.matchIndex, index);
    CountIsSize(n.peers, n.matchIndex, index);
    assert n.id !in held;
    MajorityIsQuorum(s, n.id, held + {n.id});
  }

  /** A committable entry of a leader is chosen. */
  lemma CommittableIsChosen(s: State, l: Id, n: Node, index: nat)
    requires Config(s) && Leadership(s) && l in s.nodes && s.nodes[l].role == Leader && BookOK(s, n)
    requires n.id == l && n.peers == s.nodes[l].peers
    requires n.log == s.nodes[l].log && n.currentTerm == s.nodes[l].currentTerm
    requires Committable(n, index) && index > 0
    ensures Chosen(s, n.currentTerm, index)
  {
    CountedQuorum(s, n, index);
    hide Config;
  }
}
