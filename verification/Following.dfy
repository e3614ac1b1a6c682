/** A follower takes a slice of its leader's log. */
module Following {
  import opened Types
  import opened Logs
  import opened NodeState
  import opened Cluster
  import opened Invariant
  import opened Progress
  import opened Quiet
  import opened Quorums
  import opened Replication

  // ----- what a leader's log and a follower's have in common -----

  /** What is chosen in one term is in the log of every leader from that term on. */
  lemma ChosenIsKept(s: State, u: nat, k: nat, w: nat)
    requires LeadersCarry(s) && Chosen(s, u, k) && u <= w && w in s.h.leaderLog
    ensures Agree(s.h.leaderLog[u], s.h.leaderLog[w], k)
  {
    if u < w {
      assert Kept(s, u, k, s.h.leaderLog[w]);
      NotClosed(s, u, k);
    }
  }

  /** A quorum that confirmed an entry meets every quorum that left the term without it. */
  lemma NotClosed(s: State, u: nat, k: nat)
    requires Chosen(s, u, k)
    ensures !Closed(s, u, k)
  {
    var q :| ChosenBy(s, u, k, q);
    forall r ensures !ClosedBy(s, u, k, r) {
      if IsQuorum(s, r) {
        var n := QuorumsMeet(s, q, r);
      }
    }
  }

  /** The committed part of a log is in the log of every leader of the term it was committed by, or a later one. */
  lemma BackedIsKept(s: State, log: Entries, c: nat, term: nat, w: nat)
    requires LeadersCarry(s) && LeaderLogs(s) && Backed(s, log, c, term) && log[0] == SENTINEL
    requires term <= w && w in s.h.leaderLog
    ensures Agree(log, s.h.leaderLog[w], c)
  {
    hide LeadersCarry;
    if c == 0 {
      assert Grounded(s, s.h.leaderLog[w]);
    } else {
      var u: nat, k: nat :| BackedBy(s, log, c, term, u, k);
      ChosenIsKept(s, u, k, w);
    }
  }

  /** Log matching between any two logs of the cluster. */
  lemma SameTermSamePrefix(s: State, a: Entries, b: Entries, i: nat)
    requires Grounded(s, a) && Grounded(s, b) && i < |a| && i < |b| && a[i].term == b[i].term
    ensures Agree(a, b, i)
  {
    if i > 0 {
      assert Agree(a, s.h.leaderLog[a[i].term], i) && Agree(b, s.h.leaderLog[b[i].term], i);
    }
  }

  // ----- taking a slice -----

  /** The follower keeps a log that already holds the slice; otherwise it ends up with the leader's first entries. */
  ghost predicate Adopts(log: Entries, leader: Entries, e: nat, after: Entries) {
    e < |leader| && after == if Agree(log, leader, e) then log else leader[..e + 1]
  }

  lemma AdoptsKeeps(log: Entries, leader: Entries, e: nat, after: Entries, x: Entries, k: nat)
    requires Adopts(log, leader, e, after) && Agree(x, log, k) && Agree(x, leader, k)
    ensures Agree(x, after, k)
  {
    if !Agree(log, leader, e) {
      assert k < e;
    }
  }

  lemma AdoptsHolds(log: Entries, leader: Entries, e: nat, after: Entries)
    requires Adopts(log, leader, e, after)
    ensures Agree(leader, after, e)
  {}

  lemma AdoptsGrounded(s: State, log: Entries, leader: Entries, e: nat, after: Entries, term: nat)
    requires Adopts(log, leader, e, after) && Grounded(s, log) && Grounded(s, leader)
    requires TermsUpTo(log, term) && TermsUpTo(leader, term)
    ensures Grounded(s, after) && TermsUpTo(after, term)
  {
    if !Agree(log, leader, e) {
      assert forall i :: 0 <= i < |after| ==> after[i] == leader[i];
      forall i: nat | 1 <= i < |after|
        ensures after[i].index == i && after[i].term in s.h.leaderLog && Agree(after, s.h.leaderLog[after[i].term], i)
      {
        assert Agree(leader, s.h.leaderLog[leader[i].term], i);
      }
    }
  }

  /** A follower of the request's term whose log passes the check agrees with the leader at the previous entry. */
  lemma PrevAgrees(s: State, log: Entries, m: AppendMsg)
    requires AppendOK(s, m) && LeaderLogs(s) && Grounded(s, log) && PrevMatches(log, m.req)
    ensures Agree(log, s.h.leaderLog[m.req.term], m.req.prevLogIndex)
  {
    var leader := s.h.leaderLog[m.req.term];
    assert Grounded(s, leader);
    SameTermSamePrefix(s, log, leader, m.req.prevLogIndex);
  }

  lemma GroundedDecide(s: State, a: Entries, b: Entries)
    requires Grounded(s, a) && Grounded(s, b)
    ensures TermsDecide(a, b) && Indexed(b)
  {
    forall i: nat | i < |a| && i < |b| && a[i].term == b[i].term ensures Agree(a, b, i) {
      SameTermSamePrefix(s, a, b, i);
    }
  }

  lemma SpliceAdopts(log: Entries, leader: Entries, batch: seq<Entry>, prev: nat, e: nat, commitIndex: nat)
    requires Indexed(leader) && prev <= e < |leader| && batch == leader[prev + 1..e + 1]
    requires Agree(log, leader, prev) && TermsDecide(log, leader) && Agree(log, leader, commitIndex)
    ensures !Splice(log, batch, commitIndex).panicked && Adopts(log, leader, e, Splice(log, batch, commitIndex).log)
  {
    hide Agree, TermsDecide, Contiguous, Splice;
    SpliceFromLeader(log, leader, prev, e + 1, commitIndex);
  }

  /** No panic: the slice agrees with everything the follower has committed. */
  lemma SliceIsAdopted(s: State, n: Node, m: AppendMsg)
    requires AppendOK(s, m) && LeaderLogs(s) && LeadersCarry(s) && Grounded(s, n.log)
    requires n.currentTerm == m.req.term && PrevMatches(n.log, m.req)
    requires Backed(s, n.log, n.commitIndex, n.currentTerm)
    ensures var r := Splice(n.log, m.req.entries, n.commitIndex);
            && !r.panicked && Adopts(n.log, s.h.leaderLog[m.req.term], EndOf(m.req), r.log)
    ensures Agree(n.log, s.h.leaderLog[m.req.term], n.commitIndex)
  {
    var leader := s.h.leaderLog[m.req.term];
    assert Grounded(s, leader) && n.log[0] == SENTINEL;
    hide LeadersCarry, LeaderLogs, Grounded, Backed, Agree, TermsDecide, Contiguous, Splice, Adopts;
    PrevAgrees(s, n.log, m);
    GroundedDecide(s, n.log, leader);
    BackedIsKept(s, n.log, n.commitIndex, n.currentTerm, m.req.term);
    SpliceAdopts(n.log, leader, m.req.entries, m.req.prevLogIndex, EndOf(m.req), n.commitIndex);
  }

  /** The step of a follower that takes the slice and confirms it. */
  ghost predicate IsFollow(s: State, t: State, m: AppendMsg) {
    && m.to in s.nodes && m.to in t.nodes && AppendOK(s, m)
    && s.nodes[m.to].role == Follower && s.nodes[m.to].currentTerm == m.req.term
    && Adopts(s.nodes[m.to].log, s.h.leaderLog[m.req.term], EndOf(m.req), t.nodes[m.to].log)
    && Agree(s.nodes[m.to].log, s.h.leaderLog[m.req.term], s.nodes[m.to].commitIndex)
    && t.nodes == s.nodes[m.to := s.nodes[m.to].(
         log := t.nodes[m.to].log, commitIndex := Max(s.nodes[m.to].commitIndex, m.req.leaderCommit))]
    && t == s.(nodes := t.nodes, appendReplies := t.appendReplies, h := s.h.(
         acked := s.h.acked[(m.to, m.req.term) := Max(Acked(s, m.to, m.req.term), EndOf(m.req))]))
    && (forall r :: r in t.appendReplies ==> r in s.appendReplies || (r.msg == m && r.resp.success))
  }

  lemma FollowAcked(s: State, t: State, m: AppendMsg)
    requires IsFollow(s, t, m)
    ensures forall n, u: nat :: n != m.to || u != m.req.term ==> Acked(t, n, u) == Acked(s, n, u)
    ensures Acked(t, m.to, m.req.term) == Max(Acked(s, m.to, m.req.term), EndOf(m.req))
  {}

  lemma FollowSettled(s: State, t: State, m: AppendMsg)
    requires IsFollow(s, t, m)
    ensures forall n :: n in s.nodes ==> Settled(s.nodes[n], t.nodes[n])
  {
    var n := s.nodes[m.to];
    AdoptsKeeps(n.log, s.h.leaderLog[m.req.term], EndOf(m.req), t.nodes[m.to].log, n.log, n.commitIndex);
  }

  lemma FollowEvolves(s: State, t: State, m: AppendMsg)
    requires IsFollow(s, t, m)
    ensures Evolves(s, t) && SameStandings(s, t)
  {
    hide Settled, Adopts, AppendOK;
    FollowSettled(s, t, m);
    FollowAcked(s, t, m);
  }

  lemma FollowLogs(s: State, t: State, m: AppendMsg)
    requires IsFollow(s, t, m) && Evolves(s, t) && LeaderLogs(s) && NodeLogs(s)
    ensures LeaderLogs(t) && NodeLogs(t)
  {
    hide Evolves;
    QuietLeaderLogs(s, t);
    var n := s.nodes[m.to];
    AdoptsGrounded(s, n.log, s.h.leaderLog[m.req.term], EndOf(m.req), t.nodes[m.to].log, n.currentTerm);
    forall n | n in t.nodes ensures Grounded(t, t.nodes[n].log) {
      GroundedStays(s, t, t.nodes[n].log);
    }
  }

  lemma FollowLeadership(s: State, t: State, m: AppendMsg)
    requires IsFollow(s, t, m) && Leadership(s)
    ensures Leadership(t)
  {
    FollowAcked(s, t, m);
  }

  lemma FollowLedger(s: State, t: State, m: AppendMsg)
    requires IsFollow(s, t, m) && Ledger(s)
    ensures Ledger(t)
  {
    FollowAcked(s, t, m);
    var log, leader, after := s.nodes[m.to].log, s.h.leaderLog[m.req.term], t.nodes[m.to].log;
    AdoptsHolds(log, leader, EndOf(m.req), after);
    AdoptsKeeps(log, leader, EndOf(m.req), after, leader, Acked(s, m.to, m.req.term));
    forall n | n in t.nodes && t.nodes[n].currentTerm in t.h.leaderLog
      ensures Agree(t.h.leaderLog[t.nodes[n].currentTerm], t.nodes[n].log, Acked(t, n, t.nodes[n].currentTerm))
    {
      if n != m.to {
        assert Agree(s.h.leaderLog[s.nodes[n].currentTerm], s.nodes[n].log, Acked(s, n, s.nodes[n].currentTerm));
      }
    }
  }

  /** The new log carries what the old one carried, because the leader's log carries it too. */
  lemma FollowCarries(s: State, t: State, m: AppendMsg)
    requires IsFollow(s, t, m) && Evolves(s, t) && Ledger(s) && NodesCarry(s) && LeadersCarry(s)
    ensures Carries(t, m.to, m.req.term, t.nodes[m.to].log)
  {
    hide Evolves;
    var log, leader, after := s.nodes[m.to].log, s.h.leaderLog[m.req.term], t.nodes[m.to].log;
    FollowAcked(s, t, m);
    forall u: nat, k: nat | u < m.req.term && Own(t, u, k) && k <= Acked(t, m.to, u) ensures Kept(t, u, k, after) {
      OwnWasThere(s, t, m.to, u, k);
      assert Carries(s, m.to, m.req.term, log);
      assert Kept(s, u, k, log) && Kept(s, u, k, leader);
      if Closed(s, u, k) {
        ClosedStays(s, t, u, k);
      } else {
        AdoptsKeeps(log, leader, EndOf(m.req), after, s.h.leaderLog[u], k);
      }
    }
  }

  lemma FollowNodesCarry(s: State, t: State, m: AppendMsg)
    requires IsFollow(s, t, m) && Evolves(s, t) && Ledger(s) && NodesCarry(s) && LeadersCarry(s)
    ensures NodesCarry(t)
  {
    FollowCarries(s, t, m);
    hide Evolves, LeadersCarry, Carries, Adopts;
    forall n | n in t.nodes ensures Carries(t, n, t.nodes[n].currentTerm, t.nodes[n].log) {
      if n != m.to {
        ExtendsSelf(s.nodes[n].log);
        CarriesStays(s, t, n, s.nodes[n].currentTerm, s.nodes[n].log, t.nodes[n].log);
      }
    }
  }

  lemma ExtendsSelf(log: Entries)
    ensures Extends(log, log)
  {}

  /** What the follower commits now, it or its leader had committed before. */
  lemma FollowBacked(s: State, t: State, m: AppendMsg)
    requires IsFollow(s, t, m) && Evolves(s, t) && LeadersCarry(s)
    requires Backed(s, s.nodes[m.to].log, s.nodes[m.to].commitIndex, s.nodes[m.to].currentTerm)
    ensures Backed(t, t.nodes[m.to].log, t.nodes[m.to].commitIndex, t.nodes[m.to].currentTerm)
  {
    hide Evolves, LeadersCarry;
    var n := s.nodes[m.to];
    var log, leader, after := n.log, s.h.leaderLog[m.req.term], t.nodes[m.to].log;
    if n.commitIndex < m.req.leaderCommit {
      AdoptsHolds(log, leader, EndOf(m.req), after);
      BackedStays(s, t, leader, after, m.req.leaderCommit, m.req.term, m.req.term);
    } else {
      AdoptsKeeps(log, leader, EndOf(m.req), after, log, n.commitIndex);
      BackedStays(s, t, log, after, n.commitIndex, n.currentTerm, n.currentTerm);
    }
  }

  lemma FollowCommits(s: State, t: State, m: AppendMsg)
    requires IsFollow(s, t, m) && Evolves(s, t) && LeadersCarry(s) && Commits(s)
    ensures Commits(t)
  {
    hide Evolves, LeadersCarry, Adopts, AppendOK, Backed, Agree;
    FollowBacked(s, t, m);
    forall n | n in t.nodes
      ensures Backed(t, t.nodes[n].log, t.nodes[n].commitIndex, t.nodes[n].currentTerm)
    {
      if n != m.to {
        StillBacked(s, t, s.nodes[n]);
      }
    }
  }

  lemma StillBacked(s: State, t: State, n: Node)
    requires Evolves(s, t) && Backed(s, n.log, n.commitIndex, n.currentTerm)
    ensures Backed(t, n.log, n.commitIndex, n.currentTerm) && n.commitIndex < |n.log|
  {
    hide Evolves;
    BackedStays(s, t, n.log, n.log, n.commitIndex, n.currentTerm, n.currentTerm);
  }

  lemma FollowBooks(s: State, t: State, m: AppendMsg)
    requires IsFollow(s, t, m) && Evolves(s, t) && Config(s) && Books(s)
    ensures Books(t)
  {
    hide Evolves, Config, BookOK, Adopts, AppendOK;
    PeersAreNodes(s);
    forall n | n in t.nodes && t.nodes[n].role == Leader ensures BookOK(t, t.nodes[n]) {
      BookStays(s, t, s.nodes[n], t.nodes[n]);
    }
  }

  lemma FollowEmission(s: State, t: State, m: AppendMsg)
    requires IsFollow(s, t, m) && Emission(s) && s.nodes[m.to].lastApplied <= s.nodes[m.to].commitIndex
    ensures Emission(t)
  {
    var n := s.nodes[m.to];
    AdoptsKeeps(n.log, s.h.leaderLog[m.req.term], EndOf(m.req), t.nodes[m.to].log, n.log, n.commitIndex);
    assert n.log[1..n.lastApplied + 1] == t.nodes[m.to].log[1..n.lastApplied + 1];
  }

  /** The confirmation matches what the new answer says. */
  lemma FollowReplies(s: State, t: State, m: AppendMsg)
    requires IsFollow(s, t, m) && Evolves(s, t)
    ensures forall r :: r in t.appendReplies ==> r in s.appendReplies || ReplyOK(t, r)
  {
    AppendStays(s, t, m);
    FollowAcked(s, t, m);
  }

  lemma FollowKeepsInv(s: State, t: State, m: AppendMsg)
    requires Inv(s) && m.to in s.nodes && IsFollow(s, t, m) && t.appends == s.appends && t.h.leaderLog == s.h.leaderLog
    ensures Inv(t) && Evolves(s, t)
  {
    hide SameStandings, Evolves, Config, LeaderLogs, NodeLogs, Leadership, Ledger, NodesCarry, LeadersCarry,
      Appends, AppendReplies, Books, Emission, GrantsOK, OneVoteBeforeWinner, QuorumsOK, SelfVotes, Ballots,
      VoteRequests, CandidatesCarry, IsFollow, Backed;
    assert s.nodes[m.to].lastApplied <= s.nodes[m.to].commitIndex;
    hide Commits;
    FollowEvolves(s, t, m);
    FollowLogs(s, t, m);
    FollowLeadership(s, t, m);
    FollowLedger(s, t, m);
    FollowNodesCarry(s, t, m);
    QuietLeadersCarry(s, t);
    FollowCommits(s, t, m);
    FollowBooks(s, t, m);
    FollowEmission(s, t, m);
    FollowReplies(s, t, m);
    MessagesStay(s, t);
    StandingVoteInv(s, t);
  }
}
