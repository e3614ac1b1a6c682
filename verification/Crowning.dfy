/** Winning an election: the winner is the only one of its term and has all that could be committed before. */
module Crowning {
  import opened Types
  import opened Logs
  import opened NodeState
  import opened Cluster
  import opened Invariant
  import opened Progress
  import opened Quiet
  import opened Quorums
  import opened Elections

  /** A candidate with the votes of a quorum in its current term. */
  ghost predicate Elected(s: State, c: Id, q: set<Id>) {
    && c in s.nodes && s.nodes[c].role == Candidate && IsQuorum(s, q)
    && forall v :: v in q ==> v in s.nodes && Grant(v, s.nodes[c].currentTerm, c) in s.h.grants
  }

  /** Nobody has won the term already: the two quorums share a voter, which voted for the earlier winner. */
  lemma NoRival(s: State, c: Id, q: set<Id>)
    requires Elected(s, c, q) && LeaderLogs(s) && Leadership(s) && GrantsOK(s) && QuorumsOK(s)
    ensures s.nodes[c].currentTerm !in s.h.leaderOf && s.nodes[c].currentTerm !in s.h.leaderLog
  {
    var term := s.nodes[c].currentTerm;
    if term in s.h.leaderOf {
      assert QuorumOK(s, term);
      var v := QuorumsMeet(s, q, s.h.quorum[term]);
    }
  }

  ghost predicate Fresh(s: State, c: Id) {
    c in s.nodes && s.nodes[c].currentTerm !in s.h.leaderOf && s.nodes[c].currentTerm !in s.h.leaderLog
  }

  /** The step of winning: the candidate becomes leader of its term, elected by the quorum. */
  function Crown(s: State, c: Id, quorum: set<Id>): State
    requires c in s.nodes
  {
    WithWinner(Put(s, c, BecomeLeader(s.nodes[c])), c, quorum)
  }

  lemma CrownNodes(s: State, c: Id, q: set<Id>)
    requires Fresh(s, c)
    ensures var t := Crown(s, c, q);
            && t.nodes.Keys == s.nodes.Keys
            && forall n :: n in s.nodes ==>
                 s.nodes[n].currentTerm == t.nodes[n].currentTerm && Settled(s.nodes[n], t.nodes[n])
  {}

  /** The winner starts its term with nobody having confirmed anything in it. */
  lemma CrownAcked(s: State, c: Id, q: set<Id>)
    requires Fresh(s, c) && Ledger(s)
    ensures var t := Crown(s, c, q);
            && Acked(s, c, s.nodes[c].currentTerm) == 0
            && forall n, u: nat :: n != c || u != s.nodes[c].currentTerm ==> Acked(t, n, u) == Acked(s, n, u)
  {}

  lemma CrownGoesOn(s: State, c: Id, q: set<Id>)
    requires Fresh(s, c)
    ensures var t := Crown(s, c, q);
            && (forall u :: u in s.h.leaderLog ==> u in t.h.leaderLog && GoesOn(u, s.h.leaderLog[u], t.h.leaderLog[u]))
            && (forall u :: u in s.h.leaderOf ==> u in t.h.leaderOf && t.h.leaderOf[u] == s.h.leaderOf[u])
  {}

  lemma CrownEvolves(s: State, c: Id, q: set<Id>)
    requires Fresh(s, c) && Ledger(s)
    ensures Evolves(s, Crown(s, c, q))
  {
    hide Settled, GoesOn, Ledger, Crown, Acked;
    CrownNodes(s, c, q);
    CrownAcked(s, c, q);
    CrownGoesOn(s, c, q);
  }

  lemma CrownData(s: State, c: Id, q: set<Id>)
    requires Fresh(s, c)
    ensures var t := Crown(s, c, q);
            && t.nodes.Keys == s.nodes.Keys
            && (forall n :: n in t.nodes ==>
                  SameData(s.nodes[n], t.nodes[n]) && t.nodes[n].currentTerm == s.nodes[n].currentTerm)
            && t.h.emitted == s.h.emitted && t.appends == s.appends && t.appendReplies == s.appendReplies
            && t.h.grants == s.h.grants
  {}

  lemma CrownLogs(s: State, c: Id, q: set<Id>)
    requires Fresh(s, c) && Evolves(s, Crown(s, c, q)) && LeaderLogs(s) && NodeLogs(s)
    ensures LeaderLogs(Crown(s, c, q))
  {
    var t := Crown(s, c, q);
    forall u | u in t.h.leaderLog ensures Grounded(t, t.h.leaderLog[u]) && TermsUpTo(t.h.leaderLog[u], u) {
      if u == s.nodes[c].currentTerm {
        GroundedStays(s, t, s.nodes[c].log);
      } else {
        GroundedStays(s, t, s.h.leaderLog[u]);
      }
    }
  }

  lemma CrownLeadership(s: State, c: Id, q: set<Id>)
    requires Fresh(s, c) && Leadership(s)
    ensures Leadership(Crown(s, c, q))
  {
    var t := Crown(s, c, q);
    forall n | n in t.nodes && t.nodes[n].role == Leader && n != c
      ensures Acked(t, n, t.nodes[n].currentTerm) == LastIndex(t.nodes[n].log)
    {
      assert Acked(t, n, t.nodes[n].currentTerm) == Acked(s, n, s.nodes[n].currentTerm);
    }
  }

  lemma CrownLedger(s: State, c: Id, q: set<Id>)
    requires Fresh(s, c) && NodeLogs(s) && Ledger(s)
    ensures Ledger(Crown(s, c, q))
  {
    var t := Crown(s, c, q);
    var term := s.nodes[c].currentTerm;
    forall n, u: nat | n in t.nodes && Acked(t, n, u) > 0
      ensures u <= t.nodes[n].currentTerm && u in t.h.leaderLog && Acked(t, n, u) < |t.h.leaderLog[u]|
    {
      if n != c || u != term { assert Acked(t, n, u) == Acked(s, n, u); }
    }
    forall n | n in t.nodes && t.nodes[n].currentTerm in t.h.leaderLog
      ensures Agree(t.h.leaderLog[t.nodes[n].currentTerm], t.nodes[n].log, Acked(t, n, t.nodes[n].currentTerm))
    {
      if n != c {
        assert Acked(t, n, t.nodes[n].currentTerm) == Acked(s, n, s.nodes[n].currentTerm);
        if s.nodes[n].currentTerm == term {
          assert Acked(s, n, term) == 0;
          assert Grounded(s, s.nodes[c].log) && Grounded(s, s.nodes[n].log);
        }
      }
    }
  }

  /** The winner's log has no entry of its own term yet. */
  lemma CrownOwn(s: State, c: Id, q: set<Id>, u: nat, k: nat)
    requires Fresh(s, c) && NodeLogs(s) && Own(Crown(s, c, q), u, k)
    ensures Own(s, u, k) && u != s.nodes[c].currentTerm
  {
    assert Grounded(s, s.nodes[c].log);
  }

  lemma CrownNodesCarry(s: State, c: Id, q: set<Id>)
    requires Fresh(s, c) && Evolves(s, Crown(s, c, q)) && Ledger(s) && NodesCarry(s)
    ensures NodesCarry(Crown(s, c, q))
  {
    var t := Crown(s, c, q);
    forall n | n in t.nodes ensures Carries(t, n, t.nodes[n].currentTerm, t.nodes[n].log) {
      CarriesStays(s, t, n, s.nodes[n].currentTerm, s.nodes[n].log, t.nodes[n].log);
    }
  }

  /** Either some voter had confirmed the entry, and the winner has it, or the voters close it for good. */
  lemma WinnerCarries(s: State, c: Id, q: set<Id>, u: nat, k: nat)
    requires Elected(s, c, q) && GrantsOK(s) && CandidatesCarry(s)
    requires Own(s, u, k) && u < s.nodes[c].currentTerm
    ensures Kept(s, u, k, s.nodes[c].log)
  {
    var term := s.nodes[c].currentTerm;
    if v :| v in q && k <= Acked(s, v, u) {
      assert CandidateCarries(s, Grant(v, term, c));
    } else {
      forall v | v in q ensures u < s.nodes[v].currentTerm {
        assert GrantOK(s, Grant(v, term, c));
      }
      assert ClosedBy(s, u, k, q);
    }
  }

  lemma CrownLeadersCarry(s: State, c: Id, q: set<Id>)
    requires Fresh(s, c) && Elected(s, c, q) && Evolves(s, Crown(s, c, q))
    requires NodeLogs(s) && GrantsOK(s) && CandidatesCarry(s) && LeadersCarry(s)
    ensures LeadersCarry(Crown(s, c, q))
  {
    var t := Crown(s, c, q);
    forall u: nat, k: nat, w: nat | u < w && w in t.h.leaderLog && Own(t, u, k) ensures Kept(t, u, k, t.h.leaderLog[w]) {
      CrownOwn(s, c, q, u, k);
      if w == s.nodes[c].currentTerm {
        WinnerCarries(s, c, q, u, k);
        KeptStays(s, t, u, k, s.nodes[c].log, t.h.leaderLog[w]);
      } else {
        KeptStays(s, t, u, k, s.h.leaderLog[w], t.h.leaderLog[w]);
      }
    }
  }

  /** The winner starts with every peer's next index one past its log and nothing known to match. */
  lemma FirstBook(s: State, n: Node)
    ensures BookOK(s, BecomeLeader(n))
  {
    forall p | p in n.peers
      ensures p in BecomeLeader(n).nextIndex && BecomeLeader(n).nextIndex[p] == |n.log|
      ensures p in BecomeLeader(n).matchIndex && BecomeLeader(n).matchIndex[p] == 0
    {
      SetAllAt(n.nextIndex, n.peers, |n.log|, p);
      SetAllAt(n.matchIndex, n.peers, 0, p);
    }
  }

  lemma CrownConfig(s: State, c: Id, q: set<Id>)
    requires Fresh(s, c) && Config(s)
    ensures Config(Crown(s, c, q))
  {}

  lemma CrownBooks(s: State, c: Id, q: set<Id>)
    requires Fresh(s, c) && Evolves(s, Crown(s, c, q)) && Config(s) && Books(s)
    ensures Config(Crown(s, c, q)) && Books(Crown(s, c, q))
  {
    hide Evolves, BookOK, Config;
    CrownConfig(s, c, q);
    PeersAreNodes(s);
    var t := Crown(s, c, q);
    forall n | n in t.nodes && t.nodes[n].role == Leader ensures BookOK(t, t.nodes[n]) {
      if n == c {
        FirstBook(t, s.nodes[c]);
      } else {
        BookStays(s, t, s.nodes[n], t.nodes[n]);
      }
    }
  }

  lemma CrownKeepsData(s: State, c: Id, q: set<Id>)
    requires DataInv(s) && c in s.nodes && Fresh(s, c) && Elected(s, c, q) && GrantsOK(s) && CandidatesCarry(s)
    ensures DataInv(Crown(s, c, q)) && Evolves(s, Crown(s, c, q))
  {
    hide Fresh, Elected, Evolves, Config, LeaderLogs, NodeLogs, Leadership, Ledger, NodesCarry, LeadersCarry, Commits,
      Appends, AppendReplies, Books, Emission, GrantsOK, CandidatesCarry, Crown, SameData;
    var t := Crown(s, c, q);
    CrownEvolves(s, c, q);
    CrownData(s, c, q);
    SameLogs(s, t);
    CrownLogs(s, c, q);
    QuietNodeLogs(s, t);
    CrownLeadership(s, c, q);
    CrownLedger(s, c, q);
    CrownNodesCarry(s, c, q);
    CrownLeadersCarry(s, c, q);
    QuietCommits(s, t);
    QuietMessages(s, t);
    CrownBooks(s, c, q);
    QuietEmission(s, t);
  }

  lemma SameLogs(s: State, t: State)
    requires t.nodes.Keys == s.nodes.Keys && forall n :: n in t.nodes ==> SameData(s.nodes[n], t.nodes[n])
    ensures forall n :: n in t.nodes ==> t.nodes[n].log == s.nodes[n].log
  {}

  // ----- votes -----

  lemma CrownGrants(s: State, c: Id, q: set<Id>)
    requires Fresh(s, c) && Elected(s, c, q) && GrantsOK(s) && OneVoteBeforeWinner(s)
    ensures GrantsOK(Crown(s, c, q)) && OneVoteBeforeWinner(Crown(s, c, q))
  {
    var t := Crown(s, c, q);
    forall g | g in t.h.grants ensures GrantOK(t, g) {
      assert GrantOK(s, g);
      if g.term == s.nodes[c].currentTerm && g.voter in q {
        assert Grant(g.voter, g.term, c) in s.h.grants;
      }
    }
  }

  lemma CrownQuorums(s: State, c: Id, q: set<Id>)
    requires Fresh(s, c) && Elected(s, c, q) && GrantsOK(s) && QuorumsOK(s)
    ensures QuorumsOK(Crown(s, c, q))
  {
    var t := Crown(s, c, q);
    forall u | u in t.h.leaderOf ensures u in t.h.quorum && QuorumOK(t, u) {
      if u == s.nodes[c].currentTerm {
        forall v | v in q
          ensures u <= s.nodes[v].currentTerm && (s.nodes[v].currentTerm == u ==> s.nodes[v].votedFor == c)
        {
          assert GrantOK(s, Grant(v, u, c));
        }
      } else {
        assert QuorumOK(s, u);
      }
    }
  }

  lemma CrownBallots(s: State, c: Id, q: set<Id>)
    requires Fresh(s, c) && SelfVotes(s) && Ballots(s) && VoteRequests(s)
    ensures SelfVotes(Crown(s, c, q)) && Ballots(Crown(s, c, q)) && VoteRequests(Crown(s, c, q))
  {
    var t := Crown(s, c, q);
    forall d | d in t.elections && t.elections[d].Some? ensures ElectionOK(t, d, t.elections[d].value) {
      assert ElectionOK(s, d, s.elections[d].value);
    }
    forall r | r in t.voteRequests ensures VoteRequestOK(t, r) { assert VoteRequestOK(s, r); }
  }

  lemma CrownCandidates(s: State, c: Id, q: set<Id>)
    requires Fresh(s, c) && Evolves(s, Crown(s, c, q)) && Ledger(s) && GrantsOK(s) && CandidatesCarry(s)
    ensures CandidatesCarry(Crown(s, c, q))
  {
    var t := Crown(s, c, q);
    forall g | g in t.h.grants ensures g.candidate in t.nodes && CandidateCarries(t, g) {
      assert GrantOK(s, g) && CandidateCarries(s, g);
      if t.nodes[g.candidate].role == Candidate && t.nodes[g.candidate].currentTerm == g.term {
        var log := s.nodes[g.candidate].log;
        CarriesStays(s, t, g.voter, g.term, log, log);
      }
    }
  }

  lemma CrownKeepsInv(s: State, c: Id, q: set<Id>)
    requires Inv(s) && c in s.nodes && Elected(s, c, q)
    ensures Inv(Crown(s, c, q)) && Evolves(s, Crown(s, c, q)) && Fresh(s, c)
  {
    hide Fresh, Elected, Evolves, Config, LeaderLogs, NodeLogs, Leadership, Ledger, NodesCarry, LeadersCarry, Commits,
      Appends, AppendReplies, Books, Emission, GrantsOK, OneVoteBeforeWinner, QuorumsOK, SelfVotes, Ballots,
      VoteRequests, CandidatesCarry, Crown;
    NoRivalFresh(s, c, q);
    CrownKeepsData(s, c, q);
    CrownGrants(s, c, q);
    CrownQuorums(s, c, q);
    CrownBallots(s, c, q);
    CrownCandidates(s, c, q);
  }

  lemma NoRivalFresh(s: State, c: Id, q: set<Id>)
    requires Elected(s, c, q) && LeaderLogs(s) && Leadership(s) && GrantsOK(s) && QuorumsOK(s)
    ensures Fresh(s, c)
  {
    NoRival(s, c, q);
  }

  /** A majority of counted votes is a quorum of grants. */
  lemma VotesElect(s: State, c: Id)
    requires Config(s) && Ballots(s) && c in s.nodes && c in s.elections && s.elections[c].Some?
    requires Wins(s.nodes[c], s.elections[c].value.req.term, s.elections[c].value.votes)
    ensures Elected(s, c, s.elections[c].value.voters)
  {
    var e := s.elections[c].value;
    assert ElectionOK(s, c, e);
    MajorityIsQuorum(s, c, e.voters);
  }

  lemma VotesElectInv(s: State, c: Id)
    requires Inv(s) && c in s.nodes && c in s.elections && s.elections[c].Some?
    requires Wins(s.nodes[c], s.elections[c].value.req.term, s.elections[c].value.votes)
    ensures Elected(s, c, s.elections[c].value.voters)
  {
    hide Elected, Evolves, Config, LeaderLogs, NodeLogs, Leadership, Ledger, NodesCarry, LeadersCarry, Commits,
      Appends, AppendReplies, Books, Emission, GrantsOK, OneVoteBeforeWinner, QuorumsOK, SelfVotes, Ballots,
      VoteRequests, CandidatesCarry;
    VotesElect(s, c);
  }

  /** An election ends with its winner crowned, or with nothing but its end. */
  lemma ElectionEnds(s: State, c: Id)
    requires c in s.nodes && c in s.elections && s.elections[c].Some?
    ensures var e := s.elections[c].value;
            var closed := s.(elections := s.elections[c := None]);
            EndElection(s, c) == if Wins(s.nodes[c], e.req.term, e.votes) then Crown(closed, c, e.voters) else closed
  {
    var e := s.elections[c].value;
    if !Wins(s.nodes[c], e.req.term, e.votes) {
      assert s.nodes[c := s.nodes[c]] == s.nodes;
    }
  }

  lemma CloseElectionKeepsInv(s: State, c: Id)
    requires Inv(s) && Enabled(s, CloseElection(c))
    ensures Inv(Step(s, CloseElection(c))) && Evolves(s, Step(s, CloseElection(c)))
  {
    hide Inv, Evolves, Crown, Elected, Fresh, EndElection;
    var e := s.elections[c].value;
    var m := s.(elections := s.elections[c := None]);
    ElectionEnds(s, c);
    ShrinkElectionKeepsInv(s, c, None);
    if Wins(s.nodes[c], e.req.term, e.votes) {
      VotesElectInv(s, c);
      assert Elected(m, c, e.voters) by { StillElected(s, m, c, e.voters); }
      CrownKeepsInv(m, c, e.voters);
      EvolvesTrans(s, m, Crown(m, c, e.voters));
    }
  }

  lemma StillElected(s: State, t: State, c: Id, q: set<Id>)
    requires Elected(s, c, q) && t.nodes == s.nodes && t.h == s.h
    ensures Elected(t, c, q)
  {}
}
