/** What a node's role lets happen to its log and its vote within one term. */
module Offices {
  import opened Types
  import opened Logs
  import opened NodeState
  import opened Cluster
  import opened Runs
  import opened Invariant
  import opened Progress
  import opened Safety
  import opened Guarantees

  // ----- logs of candidates and leaders -----

  /** Within a term a follower stays one, and a candidate that is not turned away keeps its log. */
  ghost predicate Office(n: Node, m: Node) {
    n.currentTerm == m.currentTerm ==>
      && (n.role == Follower ==> m.role == Follower)
      && (n.role == Candidate && m.role != Follower ==> m.log == n.log)
  }

  lemma StepOffice(s: State, ev: Event, n: Id)
    requires Enabled(s, ev) && n in s.nodes
    ensures n in Step(s, ev).nodes && Office(s.nodes[n], Step(s, ev).nodes[n])
  {
    match ev
    case DeliverAppend(m) => if n == m.to { DeliveredOffice(s.nodes[n], m.req); }
    case AnswerAppend(r) => if n == r.msg.req.leaderId { AnsweredOffice(s.nodes[n], r); }
    case _ =>
  }

  lemma DeliveredOffice(n: Node, req: AppendRequest)
    ensures Office(n, HandleAppendEntries(n, req).0)
  {}

  lemma AnsweredOffice(n: Node, r: AppendReply)
    ensures Office(n, HandleAppendResponse(n, r.msg.to, r.msg.req, r.resp))
  {}

  /** A leader that is still in its term still leads it, and its log has only grown. */
  lemma LeaderStays(s: State, t: State, l: Id)
    requires Leadership(s) && Leadership(t) && Evolves(s, t) && l in s.nodes && l in t.nodes
    requires s.nodes[l].role == Leader && t.nodes[l].currentTerm == s.nodes[l].currentTerm
    ensures t.nodes[l].role == Leader && Extends(s.nodes[l].log, t.nodes[l].log)
  {
    hide Settled;
    LeaderIsRecorded(s, l);
    RecordStays(s, t, s.nodes[l].currentTerm);
  }

  lemma LeadershipHolds(s: State)
    requires Inv(s)
    ensures Leadership(s)
  {
    hide Config, LeaderLogs, NodeLogs, Leadership, Ledger, NodesCarry, LeadersCarry, Commits, Appends, AppendReplies,
      Books, Emission, VoteInv;
  }

  lemma TermsRise(s: State, t: State, n: Id)
    requires Evolves(s, t) && n in s.nodes
    ensures n in t.nodes && s.nodes[n].currentTerm <= t.nodes[n].currentTerm
  {}

  /** What lies between two states of a node in the same term. */
  ghost predicate Tenure(n: Node, m: Node) {
    n.currentTerm == m.currentTerm ==>
      && (n.role == Follower ==> m.role == Follower)
      && (n.role == Candidate && m.role == Candidate ==> m.log == n.log)
      && (n.role != Follower && m.role == Leader ==> Extends(n.log, m.log))
      && (n.role == Leader ==> m.role == Leader)
  }

  lemma TenureTrans(n: Node, u: Node, m: Node)
    requires n.currentTerm <= u.currentTerm <= m.currentTerm && Tenure(n, u) && Tenure(u, m)
    ensures Tenure(n, m)
  {}

  lemma StepTenure(s: State, ev: Event, n: Id)
    requires Inv(s) && Enabled(s, ev) && n in s.nodes
    ensures n in Step(s, ev).nodes && Tenure(s.nodes[n], Step(s, ev).nodes[n])
  {
    hide Inv, Evolves, Leadership, Step;
    var t := Step(s, ev);
    StepOffice(s, ev, n);
    StepKeepsInv(s, ev);
    LeadershipHolds(s);
    LeadershipHolds(t);
    if s.nodes[n].role == Leader && t.nodes[n].currentTerm == s.nodes[n].currentTerm { LeaderStays(s, t, n); }
  }

  lemma {:induction false} RunTenure(s: State, events: seq<Event>, t: State, n: Id)
    requires Inv(s) && Run(s, events, t) && n in s.nodes
    ensures n in t.nodes && Tenure(s.nodes[n], t.nodes[n])
    decreases |events|
  {
    hide Inv, Evolves, Step, Enabled, Run, Tenure;
    if events == [] {
      NoEvents(s, t);
      TenureRefl(s.nodes[n]);
    } else {
      FirstEvent(s, events, t);
      var u := Step(s, events[0]);
      StepKeepsInv(s, events[0]);
      StepTenure(s, events[0], n);
      RunTenure(u, events[1..], t, n);
      RunKeepsInv(u, events[1..], t);
      TermsRise(s, u, n);
      TermsRise(u, t, n);
      TenureTrans(s.nodes[n], u.nodes[n], t.nodes[n]);
    }
  }

  lemma TenureRefl(n: Node)
    ensures Tenure(n, n)
  {}

  /**
   * From becoming a candidate until the election is decided a log does not change, and from then on, as
   * long as the winner is in the term, it leads and its log only grows.
   */
  lemma FrozenThenAppendOnly(s: State, events: seq<Event>, t: State, n: Id)
    requires Reachable(s) && Run(s, events, t) && n in s.nodes
    requires n in t.nodes && t.nodes[n].currentTerm == s.nodes[n].currentTerm
    ensures s.nodes[n].role == Leader ==> t.nodes[n].role == Leader && Extends(s.nodes[n].log, t.nodes[n].log)
    ensures s.nodes[n].role == Candidate && t.nodes[n].role == Candidate ==> t.nodes[n].log == s.nodes[n].log
    ensures s.nodes[n].role == Candidate && t.nodes[n].role == Leader ==> Extends(s.nodes[n].log, t.nodes[n].log)
    ensures s.nodes[n].role == Follower ==> t.nodes[n].role == Follower
  {
    hide Inv, Evolves, Reachable, Run;
    LaterInv(s, events, t);
    RunTenure(s, events, t, n);
  }

  /** What voters compare with their logs is the log the candidate still has, and would start to lead with. */
  lemma VotersSeeTheLog(s: State, r: VoteRequest)
    requires Reachable(s) && r in s.voteRequests && r.candidateId in s.nodes
    requires s.nodes[r.candidateId].role == Candidate && s.nodes[r.candidateId].currentTerm == r.term
    ensures r.lastLogIndex == LastIndex(s.nodes[r.candidateId].log)
    ensures r.lastLogTerm == LastTerm(s.nodes[r.candidateId].log)
  {
    hide DataInv, Voting, Ballots, CandidatesCarry, Reachable;
    ReachableInv(s);
    assert VoteRequestOK(s, r);
  }

  // ----- votes -----

  /** A request of the current term to a node that follows nobody. */
  predicate ForcesFollower(n: Node, req: AppendRequest) {
    req.term == n.currentTerm && n.role != Follower
  }

  lemma AppendForgetsVoteIff(n: Node, req: AppendRequest)
    requires n.votedFor != NOBODY
    ensures var m := HandleAppendEntries(n, req).0;
            (m.currentTerm == n.currentTerm && m.votedFor != n.votedFor) <==> ForcesFollower(n, req)
  {}

  /**
   * A vote is for the whole term, except in one case: exactly the delivery of a request of the node's own
   * term to a node that is not a follower makes it forget its vote without leaving the term.
   */
  lemma VoteForgottenIff(s: State, ev: Event, v: Id)
    requires Enabled(s, ev) && v in s.nodes && s.nodes[v].votedFor != NOBODY
    ensures v in Step(s, ev).nodes
    ensures var n, m := s.nodes[v], Step(s, ev).nodes[v];
            (m.currentTerm == n.currentTerm && m.votedFor != n.votedFor) <==>
            (ev.DeliverAppend? && ev.msg.to == v && ForcesFollower(n, ev.msg.req))
  {
    match ev
    case DeliverAppend(m) => if v == m.to { AppendForgetsVoteIff(s.nodes[v], m.req); }
    case AnswerAppend(r) => if v == r.msg.req.leaderId { AnswerKeepsVote(s.nodes[v], r); }
    case _ =>
  }

  lemma AnswerKeepsVote(n: Node, r: AppendReply)
    ensures var m := HandleAppendResponse(n, r.msg.to, r.msg.req, r.resp);
            m.currentTerm == n.currentTerm ==> m.votedFor == n.votedFor
  {}

  /** Two votes of one node in one term: the term has a winner by then, and it won without that node. */
  lemma SecondVoteIsHarmless(s: State, g: Grant, k: Grant)
    requires Reachable(s) && g in s.h.grants && k in s.h.grants
    requires g.voter == k.voter && g.term == k.term && g.candidate != k.candidate
    ensures g.term in s.h.leaderOf && g.term in s.h.quorum && IsQuorum(s, s.h.quorum[g.term])
    ensures g.voter !in s.h.quorum[g.term]
  {
    hide DataInv, Ballots, VoteRequests, CandidatesCarry, Reachable, SelfVotes;
    ReachableInv(s);
    assert GrantOK(s, g) && GrantOK(s, k);
    assert QuorumOK(s, g.term);
  }
}
