/** Election steps: what they do to votes, and why a term has at most one winner. */
module Elections {
  import opened Types
  import opened Logs
  import opened NodeState
  import opened Cluster
  import opened Invariant
  import opened Progress
  import opened Quiet

  // ----- leaving a role -----

  /** The node gives up its role in a new term, or in a term somebody else has already won without it. */
  ghost predicate IsDemotion(s: State, t: State, v: Id) {
    && IsQuiet(s, t, v) && t.nodes[v].role == Follower
    && t.h == s.h && t.elections == s.elections && t.voteRequests == s.voteRequests && t.voteReplies == s.voteReplies
    && (s.nodes[v].currentTerm < t.nodes[v].currentTerm ||
        (s.nodes[v].currentTerm in s.h.leaderOf && s.nodes[v].currentTerm in s.h.quorum
         && v !in s.h.quorum[s.nodes[v].currentTerm]))
  }

  lemma DemotionVoting(s: State, t: State, v: Id)
    requires IsDemotion(s, t, v) && Voting(s)
    ensures Voting(t)
  {
    forall g | g in t.h.grants ensures GrantOK(t, g) { assert GrantOK(s, g); }
    forall u | u in t.h.leaderOf ensures QuorumOK(t, u) { assert QuorumOK(s, u); }
    assert OneVoteBeforeWinner(t);
  }

  lemma DemotionBallots(s: State, t: State, v: Id)
    requires IsDemotion(s, t, v) && Ballots(s) && VoteRequests(s)
    ensures Ballots(t) && VoteRequests(t)
  {
    forall c | c in t.elections && t.elections[c].Some? ensures ElectionOK(t, c, t.elections[c].value) {
      assert ElectionOK(s, c, s.elections[c].value);
    }
    forall r | r in t.voteRequests ensures VoteRequestOK(t, r) { assert VoteRequestOK(s, r); }
  }

  lemma VotersAreNodes(s: State)
    requires GrantsOK(s)
    ensures forall g :: g in s.h.grants ==> g.voter in s.nodes
  {
    forall g | g in s.h.grants ensures g.voter in s.nodes { assert GrantOK(s, g); }
  }

  lemma DemotionKeepsInv(s: State, t: State, v: Id)
    requires IsDemotion(s, t, v) && Inv(s)
    ensures Inv(t) && Evolves(s, t)
  {
    hide Evolves, Config, LeaderLogs, NodeLogs, Leadership, Ledger, NodesCarry, LeadersCarry, Commits, Appends,
      AppendReplies, Books, Emission, GrantsOK, OneVoteBeforeWinner, QuorumsOK, SelfVotes, Ballots, VoteRequests,
      CandidatesCarry;
    QuietKeepsData(s, t, v);
    DemotionVoting(s, t, v);
    DemotionBallots(s, t, v);
    VotersAreNodes(s);
    QuietCandidates(s, t);
  }

  lemma StepDownKeepsInv(s: State, v: Id, term: nat)
    requires Inv(s) && v in s.nodes
    ensures var t := Put(s, v, StepDown(s.nodes[v], term)); Inv(t) && Evolves(s, t)
  {
    hide Inv;
    var t := Put(s, v, StepDown(s.nodes[v], term));
    if term > s.nodes[v].currentTerm {
      DemotionKeepsInv(s, t, v);
    } else {
      assert t.nodes == s.nodes;
      assert t == s;
      EvolvesRefl(s);
    }
  }

  // ----- starting an election -----

  lemma TimeoutQuorums(s: State, c: Id)
    requires QuorumsOK(s) && Enabled(s, Timeout(c))
    ensures QuorumsOK(StartElection(s, c))
  {
    forall u | u in s.h.leaderOf ensures QuorumOK(StartElection(s, c), u) { assert QuorumOK(s, u); }
  }

  /** The candidate's vote for itself is its first in the new term, and no quorum of that term includes it. */
  lemma TimeoutGrants(s: State, c: Id)
    requires GrantsOK(s) && QuorumsOK(s) && Enabled(s, Timeout(c)) && s.nodes[c].id == c
    ensures GrantsOK(StartElection(s, c))
  {
    var t := StartElection(s, c);
    var term := t.nodes[c].currentTerm;
    assert term in s.h.leaderOf ==> term in s.h.quorum && c !in s.h.quorum[term] by {
      if term in s.h.leaderOf { assert QuorumOK(s, term); }
    }
    hide QuorumsOK;
    forall g | g in t.h.grants ensures GrantOK(t, g) {
      if g in s.h.grants { assert GrantOK(s, g); }
    }
  }

  lemma TimeoutOneVote(s: State, c: Id)
    requires GrantsOK(s) && OneVoteBeforeWinner(s) && Enabled(s, Timeout(c))
    ensures OneVoteBeforeWinner(StartElection(s, c))
  {
    var t := StartElection(s, c);
    assert forall g :: g in s.h.grants && g.voter == c ==> g.term < t.nodes[c].currentTerm by {
      forall g | g in s.h.grants && g.voter == c ensures g.term < t.nodes[c].currentTerm { assert GrantOK(s, g); }
    }
  }

  lemma TimeoutSelfVotes(s: State, c: Id)
    requires SelfVotes(s) && Config(s) && Enabled(s, Timeout(c))
    ensures SelfVotes(StartElection(s, c))
  {}

  lemma TimeoutBallots(s: State, c: Id)
    requires Config(s) && Ballots(s) && VoteRequests(s) && Enabled(s, Timeout(c))
    ensures Ballots(StartElection(s, c)) && VoteRequests(StartElection(s, c))
  {
    var t := StartElection(s, c);
    forall d | d in t.elections && t.elections[d].Some? ensures ElectionOK(t, d, t.elections[d].value) {
      if d != c { assert ElectionOK(s, d, s.elections[d].value); }
    }
    forall r | r in t.voteRequests ensures VoteRequestOK(t, r) {
      if r in s.voteRequests { assert VoteRequestOK(s, r); }
    }
  }

  lemma TimeoutCandidates(s: State, c: Id)
    requires Ledger(s) && NodesCarry(s) && Voting(s) && CandidatesCarry(s) && Enabled(s, Timeout(c))
    requires Evolves(s, StartElection(s, c))
    ensures CandidatesCarry(StartElection(s, c))
  {
    var t := StartElection(s, c);
    forall g | g in t.h.grants ensures g.candidate in t.nodes && CandidateCarries(t, g) {
      if g in s.h.grants { assert GrantOK(s, g) && CandidateCarries(s, g); }
      if t.nodes[g.candidate].role == Candidate && t.nodes[g.candidate].currentTerm == g.term {
        if g.candidate == c {
          assert g.voter == c;
          CarriesPastTerm(s, c);
        }
        CarriesOn(s, t, g.voter, g.term, s.nodes[g.candidate].log);
      }
    }
  }

  lemma TimeoutIsQuiet(s: State, c: Id)
    requires Enabled(s, Timeout(c)) && Config(s)
    ensures IsQuiet(s, StartElection(s, c), c) && s.nodes[c].id == c
  {}

  lemma TimeoutKeepsInv(s: State, c: Id)
    requires Inv(s) && Enabled(s, Timeout(c))
    ensures Inv(Step(s, Timeout(c))) && Evolves(s, Step(s, Timeout(c)))
  {
    hide Evolves, Config, LeaderLogs, NodeLogs, Leadership, Ledger, NodesCarry, LeadersCarry, Commits, Appends,
      AppendReplies, Books, Emission, GrantsOK, OneVoteBeforeWinner, QuorumsOK, SelfVotes, Ballots, VoteRequests,
      CandidatesCarry, StartElection, IsQuiet;
    TimeoutIsQuiet(s, c);
    QuietKeepsData(s, StartElection(s, c), c);
    TimeoutQuorums(s, c);
    TimeoutGrants(s, c);
    TimeoutOneVote(s, c);
    TimeoutSelfVotes(s, c);
    TimeoutBallots(s, c);
    TimeoutCandidates(s, c);
  }

  // ----- granting a vote -----

  /** A node whose vote is free, or already with the candidate, grants it to a log no older than its own. */
  ghost predicate IsGrant(s: State, t: State, v: Id, req: VoteRequest) {
    && v in s.nodes && req in s.voteRequests && req.candidateId != v
    && s.nodes[v].currentTerm == req.term && CanGrant(s.nodes[v], req)
    && t == Put(s, v, s.nodes[v].(votedFor := req.candidateId)).(
              voteReplies := t.voteReplies,
              h := s.h.(grants := s.h.grants + {Grant(v, req.term, req.candidateId)}))
    && (forall r :: r in t.voteReplies ==>
          r in s.voteReplies || (r.voter == v && r.req == req))
  }

  /** A free vote, or one for the candidate: whatever the voter granted in this term went to the candidate. */
  lemma FreeVote(s: State, v: Id, req: VoteRequest, g: Grant)
    requires Config(s) && GrantsOK(s) && v in s.nodes
    requires g in s.h.grants && g.voter == v && g.term == s.nodes[v].currentTerm
    requires s.nodes[v].votedFor == NOBODY || s.nodes[v].votedFor == req.candidateId
    ensures g.term !in s.h.leaderOf ==> g.candidate == req.candidateId
  {
    assert GrantOK(s, g);
  }

  lemma GrantQuorums(s: State, t: State, v: Id, req: VoteRequest)
    requires IsGrant(s, t, v, req) && QuorumsOK(s)
    requires forall u :: u in s.h.leaderOf ==> s.h.leaderOf[u] != NOBODY
    ensures QuorumsOK(t)
  {
    forall u | u in t.h.leaderOf ensures QuorumOK(t, u) {
      GrantQuorum(s, t, v, req, u);
    }
  }

  lemma GrantQuorum(s: State, t: State, v: Id, req: VoteRequest, u: nat)
    requires IsGrant(s, t, v, req) && u in s.h.leaderOf && u in s.h.quorum && QuorumOK(s, u)
    requires s.h.leaderOf[u] != NOBODY
    ensures QuorumOK(t, u)
  {}

  lemma GrantGrants(s: State, t: State, v: Id, req: VoteRequest)
    requires IsGrant(s, t, v, req) && Config(s) && GrantsOK(s) && QuorumsOK(s) && VoteRequestOK(s, req)
    requires forall u :: u in s.h.leaderOf ==> s.h.leaderOf[u] != NOBODY
    ensures GrantsOK(t)
  {
    forall g | g in t.h.grants ensures GrantOK(t, g) {
      if g in s.h.grants {
        assert GrantOK(s, g);
        if g.voter == v && g.term == req.term { FreeVote(s, v, req, g); }
      } else if g.term in s.h.leaderOf {
        assert QuorumOK(s, g.term);
      }
    }
  }

  lemma GrantOneVote(s: State, t: State, v: Id, req: VoteRequest)
    requires IsGrant(s, t, v, req) && Config(s) && GrantsOK(s) && OneVoteBeforeWinner(s)
    ensures OneVoteBeforeWinner(t)
  {
    assert forall g :: g in s.h.grants && g.voter == v && g.term == req.term && g.term !in s.h.leaderOf ==>
        g.candidate == req.candidateId by {
      forall g | g in s.h.grants && g.voter == v && g.term == req.term && g.term !in s.h.leaderOf
        ensures g.candidate == req.candidateId
      {
        FreeVote(s, v, req, g);
      }
    }
  }

  lemma GrantSelfVotes(s: State, t: State, v: Id, req: VoteRequest)
    requires IsGrant(s, t, v, req) && SelfVotes(s) && Config(s)
    ensures SelfVotes(t)
  {}

  lemma GrantBallots(s: State, t: State, v: Id, req: VoteRequest)
    requires IsGrant(s, t, v, req) && Config(s) && Voting(s) && Ballots(s) && VoteRequests(s)
    ensures Ballots(t) && VoteRequests(t)
  {
    forall d | d in t.elections && t.elections[d].Some? ensures ElectionOK(t, d, t.elections[d].value) {
      assert ElectionOK(s, d, s.elections[d].value);
    }
    forall r | r in t.voteRequests ensures VoteRequestOK(t, r) { assert VoteRequestOK(s, r); }
  }

  /** A log that passes the up-to-date check carries all that the voter carries. */
  lemma UpToDateCarries(s: State, v: Id, term: nat, own: Entries, other: Entries)
    requires LeaderLogs(s) && Grounded(s, own) && Grounded(s, other) && LeadersCarry(s)
    requires LastTerm(other) > LastTerm(own) || (LastTerm(other) == LastTerm(own) && |other| >= |own|)
    requires Carries(s, v, term, own)
    ensures Carries(s, v, term, other)
  {
    forall u: nat, k: nat | u < term && Own(s, u, k) && k <= Acked(s, v, u) ensures Kept(s, u, k, other) {
      assert Kept(s, u, k, own);
      if Agree(s.h.leaderLog[u], own, k) {
        UpToDateKeeps(s, u, k, own, other);
      }
    }
  }

  lemma UpToDateKeeps(s: State, u: nat, k: nat, own: Entries, other: Entries)
    requires LeaderLogs(s) && Grounded(s, own) && Grounded(s, other) && LeadersCarry(s)
    requires LastTerm(other) > LastTerm(own) || (LastTerm(other) == LastTerm(own) && |other| >= |own|)
    requires Own(s, u, k) && Agree(s.h.leaderLog[u], own, k)
    ensures Kept(s, u, k, other)
  {
    var mine, theirs := LastTerm(own), LastTerm(other);
    assert Agree(own, s.h.leaderLog[mine], |own| - 1);
    assert u == s.h.leaderLog[mine][k].term <= mine;
    assert |other| > 1;
    assert Agree(other, s.h.leaderLog[theirs], |other| - 1);
    if mine < theirs {
      assert Kept(s, u, k, s.h.leaderLog[theirs]);
      if Agree(s.h.leaderLog[u], s.h.leaderLog[theirs], k) {
        ShorterMeansOlder(s, u, k, other);
      }
    }
  }

  /** A log whose last term is above u and that shares a leader's log with entry k of term u reaches past k. */
  lemma ShorterMeansOlder(s: State, u: nat, k: nat, log: Entries)
    requires LeaderLogs(s) && Own(s, u, k) && LastTerm(log) > u && LastTerm(log) in s.h.leaderLog
    requires Agree(log, s.h.leaderLog[LastTerm(log)], |log| - 1)
    requires Agree(s.h.leaderLog[u], s.h.leaderLog[LastTerm(log)], k)
    ensures Agree(s.h.leaderLog[u], log, k)
  {
    var last := |log| - 1;
    assert TermsUpTo(s.h.leaderLog[u], u);
    assert s.h.leaderLog[LastTerm(log)][last] == log[last];
  }

  lemma GrantNewCandidate(s: State, v: Id, req: VoteRequest)
    requires v in s.nodes && VoteRequestOK(s, req) && s.nodes[v].currentTerm == req.term && UpToDate(req, s.nodes[v].log)
    requires LeaderLogs(s) && NodeLogs(s) && NodesCarry(s) && LeadersCarry(s)
    ensures CandidateCarries(s, Grant(v, req.term, req.candidateId))
  {
    var c := req.candidateId;
    assert Carries(s, v, req.term, s.nodes[v].log);
    if s.nodes[c].role == Candidate && s.nodes[c].currentTerm == req.term {
      UpToDateCarries(s, v, req.term, s.nodes[v].log, s.nodes[c].log);
    }
  }

  lemma GrantCandidates(s: State, t: State, v: Id, req: VoteRequest)
    requires IsGrant(s, t, v, req) && Evolves(s, t) && Ledger(s) && GrantsOK(s) && CandidatesCarry(s)
    requires VoteRequestOK(s, req) && CandidateCarries(s, Grant(v, req.term, req.candidateId))
    ensures CandidatesCarry(t)
  {
    forall g | g in t.h.grants ensures g.candidate in t.nodes && CandidateCarries(t, g) {
      if g in s.h.grants { assert GrantOK(s, g); }
      assert CandidateCarries(s, g);
      if t.nodes[g.candidate].role == Candidate && t.nodes[g.candidate].currentTerm == g.term {
        CarriesOn(s, t, g.voter, g.term, s.nodes[g.candidate].log);
      }
    }
  }

  lemma GrantIsQuiet(s: State, t: State, v: Id, req: VoteRequest)
    requires IsGrant(s, t, v, req) && Config(s) && Leadership(s) && VoteRequests(s)
    ensures IsQuiet(s, t, v) && VoteRequestOK(s, req)
    ensures s.nodes[v].currentTerm == req.term && UpToDate(req, s.nodes[v].log)
    ensures forall u :: u in s.h.leaderOf ==> s.h.leaderOf[u] != NOBODY
  {}

  lemma GrantKeepsInv(s: State, t: State, v: Id, req: VoteRequest)
    requires IsGrant(s, t, v, req) && Inv(s)
    ensures Inv(t) && Evolves(s, t)
  {
    hide Evolves, Config, LeaderLogs, NodeLogs, Leadership, Ledger, NodesCarry, LeadersCarry, Commits, Appends,
      AppendReplies, Books, Emission, GrantsOK, OneVoteBeforeWinner, QuorumsOK, SelfVotes, Ballots, VoteRequests,
      CandidatesCarry, IsGrant, IsQuiet, CandidateCarries, VoteRequestOK;
    GrantIsQuiet(s, t, v, req);
    QuietKeepsData(s, t, v);
    GrantQuorums(s, t, v, req);
    GrantGrants(s, t, v, req);
    GrantOneVote(s, t, v, req);
    GrantSelfVotes(s, t, v, req);
    GrantBallots(s, t, v, req);
    GrantNewCandidate(s, v, req);
    GrantCandidates(s, t, v, req);
  }

  // ----- answers -----

  /** Only the elections in progress and the answers to vote requests change. */
  ghost predicate IsBallotChange(s: State, t: State) {
    && t == s.(elections := t.elections, voteReplies := t.voteReplies)
    && t.elections.Keys == s.elections.Keys
  }

  lemma BallotChangeIsQuiet(s: State, t: State, v: Id)
    requires IsBallotChange(s, t) && v in s.nodes
    ensures IsQuiet(s, t, v)
  {
    assert t.nodes == s.nodes[v := t.nodes[v]];
  }

  lemma BallotChangeVotes(s: State, t: State)
    requires IsBallotChange(s, t) && Voting(s) && VoteRequests(s)
    ensures Voting(t) && VoteRequests(t)
  {
    forall g | g in t.h.grants ensures GrantOK(t, g) { assert GrantOK(s, g); }
    forall u | u in t.h.leaderOf ensures QuorumOK(t, u) { assert QuorumOK(s, u); }
    forall r | r in t.voteRequests ensures VoteRequestOK(t, r) { assert VoteRequestOK(s, r); }
  }

  lemma BallotChangeSides(s: State, t: State)
    requires IsBallotChange(s, t)
    ensures t.h == s.h && t.nodes == s.nodes
  {}

  lemma BallotChangeKeepsInv(s: State, t: State, v: Id)
    requires IsBallotChange(s, t) && Inv(s) && Ballots(t) && v in s.nodes
    ensures Inv(t) && Evolves(s, t)
  {
    hide Evolves, Config, LeaderLogs, NodeLogs, Leadership, Ledger, NodesCarry, LeadersCarry, Commits, Appends,
      AppendReplies, Books, Emission, GrantsOK, OneVoteBeforeWinner, QuorumsOK, SelfVotes, Ballots, VoteRequests,
      CandidatesCarry, IsBallotChange, IsQuiet;
    BallotChangeIsQuiet(s, t, v);
    QuietKeepsData(s, t, v);
    BallotChangeVotes(s, t);
    VotersAreNodes(s);
    BallotChangeSides(s, t);
    QuietCandidates(s, t);
  }

  /** A refused request adds an answer that grants nothing; the voter may have stepped down first. */
  lemma DeliverVoteKeepsInv(s: State, v: Id, req: VoteRequest)
    requires Inv(s) && Enabled(s, DeliverVote(v, req))
    ensures Inv(Step(s, DeliverVote(v, req))) && Evolves(s, Step(s, DeliverVote(v, req)))
  {
    hide Inv, Evolves, Ballots;
    var m := Put(s, v, StepDown(s.nodes[v], req.term));
    var t := AnswerVoteRequest(s, v, req);
    StepDownKeepsInv(s, v, req.term);
    BallotsHold(m);
    if req.term >= m.nodes[v].currentTerm && CanGrant(m.nodes[v], req) {
      assert t.nodes == m.nodes[v := m.nodes[v].(votedFor := req.candidateId)];
      GrantKeepsInv(m, t, v, req);
    } else {
      assert t == m.(voteReplies := t.voteReplies);
      RefusalBallots(m, t, VoteReply(req, v, HandleVoteRequest(s.nodes[v], req).1));
      BallotChangeKeepsInv(m, t, v);
    }
    EvolvesTrans(s, m, t);
  }

  lemma BallotsHold(s: State)
    requires Inv(s)
    ensures Ballots(s)
  {
    hide Evolves, Config, LeaderLogs, NodeLogs, Leadership, Ledger, NodesCarry, LeadersCarry, Commits, Appends,
      AppendReplies, Books, Emission, GrantsOK, OneVoteBeforeWinner, QuorumsOK, SelfVotes, Ballots, VoteRequests,
      CandidatesCarry;
  }

  lemma RefusalBallots(s: State, t: State, r: VoteReply)
    requires Ballots(s) && t == s.(voteReplies := s.voteReplies + {r}) && !r.resp.voteGranted && r.voter in s.nodes
    ensures Ballots(t)
  {
    forall d | d in t.elections && t.elections[d].Some? ensures ElectionOK(t, d, t.elections[d].value) {
      assert ElectionOK(s, d, s.elections[d].value);
    }
  }

  /** An answer leaves the waiting list, and is up for counting when it grants the vote. */
  lemma AnswerBallots(s: State, t: State, c: Id, r: VoteReply, counts: bool)
    requires Ballots(s) && c in s.elections && s.elections[c].Some? && r in s.voteReplies
    requires r.req == s.elections[c].value.req && r.voter in s.elections[c].value.waiting
    requires counts ==> r.resp.voteGranted
    requires var e := s.elections[c].value;
             t == s.(elections := s.elections[c := Some(
               e.(waiting := e.waiting - {r.voter}, checked := if counts then e.checked + {r.voter} else e.checked))])
    ensures Ballots(t)
  {
    assert ElectionOK(s, c, s.elections[c].value);
    forall d | d in t.elections && t.elections[d].Some? ensures ElectionOK(t, d, t.elections[d].value) {
      assert ElectionOK(s, d, s.elections[d].value);
    }
  }

  lemma AnswerVoteKeepsInv(s: State, c: Id, r: VoteReply)
    requires Inv(s) && Enabled(s, AnswerVote(c, r))
    ensures Inv(Step(s, AnswerVote(c, r))) && Evolves(s, Step(s, AnswerVote(c, r)))
  {
    hide Inv, Evolves, Ballots;
    var e := s.elections[c].value;
    var t := TakeVoteReply(s, c, r);
    var m := Put(s, c, StepDown(s.nodes[c], r.resp.term));
    StepDownKeepsInv(s, c, r.resp.term);
    BallotsHold(m);
    var counts := HandleVoteResponse(s.nodes[c], e.req.term, r.resp).1;
    assert t.nodes == m.nodes;
    AnswerBallots(m, t, c, r, counts);
    BallotChangeKeepsInv(m, t, c);
    EvolvesTrans(s, m, t);
  }

  /** A vote up for counting is counted once, and never again. */
  lemma CountBallots(s: State, c: Id, p: Id)
    requires Ballots(s) && Enabled(s, CountVote(c, p))
    ensures Ballots(TakeVote(s, c, p)) && c in s.nodes
  {
    var t := TakeVote(s, c, p);
    assert ElectionOK(s, c, s.elections[c].value);
    forall d | d in t.elections && t.elections[d].Some? ensures ElectionOK(t, d, t.elections[d].value) {
      assert ElectionOK(s, d, s.elections[d].value);
    }
  }

  lemma CountVoteKeepsInv(s: State, c: Id, p: Id)
    requires Inv(s) && Enabled(s, CountVote(c, p))
    ensures Inv(Step(s, CountVote(c, p))) && Evolves(s, Step(s, CountVote(c, p)))
  {
    hide Inv, Evolves, Ballots;
    BallotsHold(s);
    CountBallots(s, c, p);
    BallotChangeKeepsInv(s, TakeVote(s, c, p), c);
  }

  /** Giving up on a peer or closing the election only takes away from it. */
  lemma ShrinkElection(s: State, c: Id, e: Option<Election>)
    requires Ballots(s) && c in s.elections && s.elections[c].Some?
    requires e.Some? ==> e.value == s.elections[c].value.(waiting := e.value.waiting)
                         && e.value.waiting <= s.elections[c].value.waiting
    ensures Ballots(s.(elections := s.elections[c := e])) && c in s.nodes
  {
    var t := s.(elections := s.elections[c := e]);
    assert ElectionOK(s, c, s.elections[c].value);
    forall d | d in t.elections && t.elections[d].Some? ensures ElectionOK(t, d, t.elections[d].value) {
      assert ElectionOK(s, d, s.elections[d].value);
    }
  }

  lemma ShrinkElectionKeepsInv(s: State, c: Id, e: Option<Election>)
    requires Inv(s) && c in s.elections && s.elections[c].Some?
    requires e.Some? ==> e.value == s.elections[c].value.(waiting := e.value.waiting)
                         && e.value.waiting <= s.elections[c].value.waiting
    ensures var t := s.(elections := s.elections[c := e]); Inv(t) && Evolves(s, t)
  {
    hide Inv, Evolves, Ballots;
    BallotsHold(s);
    ShrinkElection(s, c, e);
    BallotChangeKeepsInv(s, s.(elections := s.elections[c := e]), c);
  }

  lemma LoseVoteKeepsInv(s: State, c: Id, p: Id)
    requires Inv(s) && Enabled(s, LoseVote(c, p))
    ensures Inv(Step(s, LoseVote(c, p))) && Evolves(s, Step(s, LoseVote(c, p)))
  {
    hide Inv, Evolves;
    var e := s.elections[c].value;
    ShrinkElectionKeepsInv(s, c, Some(e.(waiting := e.waiting - {p})));
  }
}
