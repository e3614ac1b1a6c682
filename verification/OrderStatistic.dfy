/** The commit rule as an order statistic of what the cluster is known to hold. */
module OrderStatistic {
  import opened Types
  import opened Logs
  import opened NodeState
  import opened Cluster
  import opened Runs
  import opened Guarantees

  /** How many of the values are at least x. */
  function CountAtLeast(values: seq<nat>, x: nat): (count: nat) {
    if values == [] then 0 else (if values[0] >= x then 1 else 0) + CountAtLeast(values[1..], x)
  }

  /** v is the k-th largest of the values: at least k are no smaller, and fewer than k are larger. */
  ghost predicate IsKthLargest(values: seq<nat>, k: nat, v: nat) {
    v in values && CountAtLeast(values, v) >= k && CountAtLeast(values, v + 1) < k
  }

  lemma {:induction false} CountFalls(values: seq<nat>, x: nat, y: nat)
    requires x <= y
    ensures CountAtLeast(values, y) <= CountAtLeast(values, x)
  {
    if values != [] { CountFalls(values[1..], x, y); }
  }

  lemma {:induction false} CountChangesAtValue(values: seq<nat>, x: nat)
    requires CountAtLeast(values, x + 1) < CountAtLeast(values, x)
    ensures x in values
  {
    if values[0] != x { CountChangesAtValue(values[1..], x); }
  }

  lemma KthLargestIsUnique(values: seq<nat>, k: nat, v: nat, w: nat)
    requires IsKthLargest(values, k, v) && IsKthLargest(values, k, w)
    ensures v == w
  {
    if v < w { CountFalls(values, v + 1, w); }
    if w < v { CountFalls(values, w + 1, v); }
  }

  function Matches(peers: seq<Id>, matchIndex: map<Id, nat>): seq<nat> {
    if peers == [] then [] else [Lookup(matchIndex, peers[0])] + Matches(peers[1..], matchIndex)
  }

  /** The leader's own last index and the match index of every peer. */
  function Held(n: Node): seq<nat> { [LastIndex(n.log)] + Matches(n.peers, n.matchIndex) }

  lemma {:induction false} MatchesCounted(peers: seq<Id>, matchIndex: map<Id, nat>, x: nat)
    ensures CountAtLeast(Matches(peers, matchIndex), x) == CountHolding(peers, matchIndex, x)
    ensures x == 0 ==> CountHolding(peers, matchIndex, x) == |peers|
  {
    if peers != [] {
      MatchesCounted(peers[1..], matchIndex, x);
      assert Matches(peers, matchIndex)[1..] == Matches(peers[1..], matchIndex);
    }
  }

  lemma {:induction false} NobodyHoldsMore(peers: seq<Id>, matchIndex: map<Id, nat>, x: nat)
    requires forall p :: p in peers ==> Lookup(matchIndex, p) < x
    ensures CountHolding(peers, matchIndex, x) == 0
  {
    if peers != [] { NobodyHoldsMore(peers[1..], matchIndex, x); }
  }

  /** Up to the last index the leader's own copy counts too. */
  lemma HeldCounted(n: Node, x: nat)
    ensures CountAtLeast(Held(n), x) == (if x <= LastIndex(n.log) then 1 else 0) + CountHolding(n.peers, n.matchIndex, x)
  {
    MatchesCounted(n.peers, n.matchIndex, x);
    assert Held(n)[1..] == Matches(n.peers, n.matchIndex);
  }

  /** The largest index up to hi that a majority holds; every node holds index 0. */
  function MajorityHeld(n: Node, hi: nat): (v: nat)
    ensures v <= hi && (v == 0 || Replicas(n, v) >= Majority(n))
    ensures forall i: nat {:trigger Replicas(n, i)} :: v < i <= hi ==> Replicas(n, i) < Majority(n)
  {
    if hi == 0 || Replicas(n, hi) >= Majority(n) then hi else MajorityHeld(n, hi - 1)
  }

  lemma MajorityHeldIsKth(n: Node)
    requires forall p :: p in n.peers ==> Lookup(n.matchIndex, p) <= LastIndex(n.log)
    ensures IsKthLargest(Held(n), Majority(n), MajorityHeld(n, LastIndex(n.log)))
  {
    var last := LastIndex(n.log);
    var v := MajorityHeld(n, last);
    HeldCounted(n, v);
    HeldCounted(n, v + 1);
    MatchesCounted(n.peers, n.matchIndex, 0);
    if v == last {
      NobodyHoldsMore(n.peers, n.matchIndex, v + 1);
    } else {
      assert Replicas(n, v + 1) < Majority(n);
    }
    CountChangesAtValue(Held(n), v);
  }

  /**
   * The scan ends at the majority-th largest of the leader's last index and its peers' match indices,
   * when that is new and an entry of the leader's own term; otherwise the commit index stays.
   */
  lemma ScanIsOrderStatistic(n: Node, v: nat)
    requires forall i, j :: 0 <= i <= j < |n.log| ==> n.log[i].term <= n.log[j].term
    requires forall i :: 0 <= i < |n.log| ==> n.log[i].term <= n.currentTerm
    requires forall p :: p in n.peers ==> Lookup(n.matchIndex, p) <= LastIndex(n.log)
    requires IsKthLargest(Held(n), Majority(n), v)
    ensures v <= LastIndex(n.log)
    ensures AdvanceCommitIndex(n).commitIndex ==
            if v > n.commitIndex && n.log[v].term == n.currentTerm then v else n.commitIndex
  {
    var last := LastIndex(n.log);
    var held := MajorityHeld(n, last);
    MajorityHeldIsKth(n);
    KthLargestIsUnique(Held(n), Majority(n), v, held);
    var index := HighestCommittable(n, last);
    if held > n.commitIndex && n.log[held].term == n.currentTerm {
      assert Committable(n, held);
    }
  }

  lemma KthLargestExists(n: Node) returns (v: nat)
    requires forall p :: p in n.peers ==> Lookup(n.matchIndex, p) <= LastIndex(n.log)
    ensures IsKthLargest(Held(n), Majority(n), v)
  {
    MajorityHeldIsKth(n);
    v := MajorityHeld(n, LastIndex(n.log));
  }

  lemma TakenSuccess(n: Node, r: AppendReply)
    requires n.role == Leader && n.currentTerm == r.msg.req.term && r.resp.success && r.resp.term <= n.currentTerm
    ensures var m := HandleAppendResponse(n, r.msg.to, r.msg.req, r.resp);
            var booked := Booked(n, r.msg.to, r.msg.req);
            && m == AdvanceCommitIndex(booked) && Held(m) == Held(booked) && Majority(m) == Majority(n)
            && m == booked.(commitIndex := m.commitIndex) && m.role == Leader
            && booked.commitIndex == n.commitIndex
  {}

  /** In every reachable state, a success answer moves the leader's commit index to that order statistic. */
  lemma CommitIsOrderStatistic(s: State, r: AppendReply) returns (v: nat)
    requires Reachable(s) && Enabled(s, AnswerAppend(r)) && r.resp.success
    requires var n := s.nodes[r.msg.req.leaderId];
             n.role == Leader && n.currentTerm == r.msg.req.term && r.resp.term <= n.currentTerm
    ensures var l := r.msg.req.leaderId;
            var n, m := s.nodes[l], Step(s, AnswerAppend(r)).nodes[l];
            && IsKthLargest(Held(m), Majority(m), v) && v <= LastIndex(m.log) && m.log == n.log
            && m.commitIndex == if v > n.commitIndex && m.log[v].term == m.currentTerm then v else n.commitIndex
  {
    hide Reachable, HandleAppendResponse, AdvanceCommitIndex, IsKthLargest, Held;
    var l := r.msg.req.leaderId;
    var t := Step(s, AnswerAppend(r));
    var m := t.nodes[l];
    Reach(s, AnswerAppend(r));
    TakenSuccess(s.nodes[l], r);
    NodeInvariant(t, l);
    forall p | p in m.peers ensures Lookup(m.matchIndex, p) <= LastIndex(m.log) { MatchIndexSound(t, l, p); }
    v := KthLargestExists(m);
    ScanIsOrderStatistic(Booked(s.nodes[l], r.msg.to, r.msg.req), v);
  }
}
