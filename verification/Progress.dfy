/** What every step keeps or only adds to, and what therefore stays true once it is true. */
module Progress {
  import opened Types
  import opened Logs
  import opened NodeState
  import opened Cluster
  import opened Invariant

  /** b continues a. */
  ghost predicate Extends(a: Entries, b: Entries) { Agree(a, b, |a| - 1) }

  /** The commit index and the applied index never fall, and what is committed never changes. */
  ghost predicate Settled(n: Node, m: Node) {
    && n.commitIndex <= m.commitIndex && n.lastApplied <= m.lastApplied
    && forall i {:trigger n.log[i]} {:trigger m.log[i]} ::
         0 <= i <= n.commitIndex && i < |n.log| ==> i < |m.log| && m.log[i] == n.log[i]
  }

  /** The log of the leader of a term goes on, with entries of that term only. */
  ghost predicate GoesOn(term: nat, a: Entries, b: Entries) {
    Extends(a, b) && forall i {:trigger b[i]} :: |a| <= i < |b| ==> b[i].term == term
  }

  /** Terms and confirmations only rise, a confirmation is final once its term is over, leader logs only grow. */
  ghost predicate Evolves(s: State, t: State) {
    && t.nodes.Keys == s.nodes.Keys
    && (forall n :: n in s.nodes ==> s.nodes[n].currentTerm <= t.nodes[n].currentTerm && Settled(s.nodes[n], t.nodes[n]))
    && (forall n, u: nat {:trigger Acked(s, n, u)} {:trigger Acked(t, n, u)} :: n in s.nodes ==>
          Acked(s, n, u) <= Acked(t, n, u) && (u < s.nodes[n].currentTerm ==> Acked(s, n, u) == Acked(t, n, u)))
    && (forall u {:trigger s.h.leaderLog[u]} :: u in s.h.leaderLog ==>
          u in t.h.leaderLog && GoesOn(u, s.h.leaderLog[u], t.h.leaderLog[u]))
    && (forall u {:trigger s.h.leaderOf[u]} :: u in s.h.leaderOf ==>
          u in t.h.leaderOf && t.h.leaderOf[u] == s.h.leaderOf[u])
  }

  lemma OwnStays(s: State, t: State, u: nat, k: nat)
    requires Evolves(s, t) && Own(s, u, k)
    ensures Own(t, u, k) && Agree(s.h.leaderLog[u], t.h.leaderLog[u], k)
  {
    assert s.h.leaderLog[u] != [];
  }

  lemma ClosedStays(s: State, t: State, u: nat, k: nat)
    requires Evolves(s, t) && Closed(s, u, k)
    ensures Closed(t, u, k)
  {
    var q :| ClosedBy(s, u, k, q);
    assert ClosedBy(t, u, k, q);
  }

  lemma KeptStays(s: State, t: State, u: nat, k: nat, before: Entries, after: Entries)
    requires Evolves(s, t) && Own(s, u, k) && Kept(s, u, k, before) && Extends(before, after)
    ensures Own(t, u, k) && Kept(t, u, k, after)
  {
    OwnStays(s, t, u, k);
    if Closed(s, u, k) {
      ClosedStays(s, t, u, k);
    }
  }

  lemma ChosenStays(s: State, t: State, u: nat, k: nat)
    requires Evolves(s, t) && Chosen(s, u, k)
    ensures Chosen(t, u, k) && Agree(s.h.leaderLog[u], t.h.leaderLog[u], k)
  {
    OwnStays(s, t, u, k);
    var q :| ChosenBy(s, u, k, q);
    assert ChosenBy(t, u, k, q);
  }

  lemma BackedStays(s: State, t: State, before: Entries, after: Entries, c: nat, term: nat, later: nat)
    requires Evolves(s, t) && Backed(s, before, c, term) && Agree(before, after, c) && term <= later
    ensures Backed(t, after, c, later)
  {
    if c > 0 {
      var u: nat, k: nat :| BackedBy(s, before, c, term, u, k);
      ChosenStays(s, t, u, k);
      assert BackedBy(t, after, c, later, u, k);
    }
  }

  lemma GroundedStays(s: State, t: State, log: Entries)
    requires Evolves(s, t) && Grounded(s, log)
    ensures Grounded(t, log)
  {
    forall i: nat | 1 <= i < |log| ensures log[i].term in t.h.leaderLog && Agree(log, t.h.leaderLog[log[i].term], i) {
      assert Agree(log, s.h.leaderLog[log[i].term], i);
    }
  }

  lemma CarriesStays(s: State, t: State, n: Id, term: nat, before: Entries, after: Entries)
    requires Evolves(s, t) && Ledger(s) && n in s.nodes && term <= s.nodes[n].currentTerm
    requires Carries(s, n, term, before) && Extends(before, after)
    ensures Carries(t, n, term, after)
  {
    forall u: nat, k: nat | u < term && Own(t, u, k) && k <= Acked(t, n, u) ensures Kept(t, u, k, after) {
      OwnWasThere(s, t, n, u, k);
      KeptStays(s, t, u, k, before, after);
    }
  }

  /** An entry confirmed before the step was there before the step. */
  lemma OwnWasThere(s: State, t: State, n: Id, u: nat, k: nat)
    requires Evolves(s, t) && Ledger(s) && n in s.nodes
    requires Own(t, u, k) && k <= Acked(s, n, u)
    ensures Own(s, u, k)
  {
    assert Acked(s, n, u) > 0;
    assert Extends(s.h.leaderLog[u], t.h.leaderLog[u]);
  }

  lemma AppendStays(s: State, t: State, m: AppendMsg)
    requires Evolves(s, t) && AppendOK(s, m)
    ensures AppendOK(t, m)
  {
    var before, after := s.h.leaderLog[m.req.term], t.h.leaderLog[m.req.term];
    assert Extends(before, after);
    BackedStays(s, t, before, after, m.req.leaderCommit, m.req.term, m.req.term);
    assert before[m.req.prevLogIndex + 1..EndOf(m.req) + 1] == after[m.req.prevLogIndex + 1..EndOf(m.req) + 1];
  }

  lemma ReplyStays(s: State, t: State, r: AppendReply)
    requires Evolves(s, t) && ReplyOK(s, r)
    ensures ReplyOK(t, r)
  {
    AppendStays(s, t, r.msg);
  }

  /** A leader's books stay right while it keeps them and its log does not shrink. */
  lemma BookStays(s: State, t: State, n: Node, m: Node)
    requires Evolves(s, t) && BookOK(s, n) && forall p :: p in n.peers ==> p in s.nodes
    requires m.peers == n.peers && m.nextIndex == n.nextIndex && m.matchIndex == n.matchIndex
    requires m.currentTerm == n.currentTerm && |n.log| <= |m.log|
    ensures BookOK(t, m)
  {}

  lemma PeersAreNodes(s: State)
    requires Config(s)
    ensures forall n :: n in s.nodes ==> forall p :: p in s.nodes[n].peers ==> p in s.nodes
  {}

  lemma EvolvesTrans(s: State, t: State, u: State)
    requires Evolves(s, t) && Evolves(t, u)
    ensures Evolves(s, u)
  {
    forall n | n in s.nodes ensures Settled(s.nodes[n], u.nodes[n]) {
      SettledTrans(s.nodes[n], t.nodes[n], u.nodes[n]);
    }
    forall w | w in s.h.leaderLog ensures w in u.h.leaderLog && GoesOn(w, s.h.leaderLog[w], u.h.leaderLog[w]) {
      GoesOnTrans(w, s.h.leaderLog[w], t.h.leaderLog[w], u.h.leaderLog[w]);
    }
  }

  lemma GoesOnTrans(term: nat, a: Entries, b: Entries, c: Entries)
    requires GoesOn(term, a, b) && GoesOn(term, b, c)
    ensures GoesOn(term, a, c)
  {
    forall i | |a| <= i < |c| ensures c[i].term == term {
      if i < |b| { assert c[i] == b[i]; }
    }
  }

  lemma SettledTrans(a: Node, b: Node, c: Node)
    requires Settled(a, b) && Settled(b, c)
    ensures Settled(a, c)
  {
    var last := if a.commitIndex < |a.log| then a.commitIndex else |a.log| - 1;
    var entry := a.log[last];
    assert last < |b.log| && b.log[last] == entry;
    assert last < |c.log|;
    forall i | 0 <= i <= a.commitIndex && i < |a.log| ensures i < |c.log| && c.log[i] == a.log[i] {
      var entry := a.log[i];
      assert i < |b.log| && b.log[i] == entry;
    }
  }

  lemma EvolvesRefl(s: State)
    ensures Evolves(s, s)
  {}
}
