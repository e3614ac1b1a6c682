/**
 * The documentation says that a node votes at most once in a term. It does not: in a run of three nodes
 * one of them votes for itself and, in the same term, for the node that has won against it. A node votes
 * twice exactly when the leader of its term turns it from a candidate into a follower, and later in the
 * term a vote request with a log that is up to date reaches it while it has no vote.
 */
module Votes {
  import opened Types
  import opened NodeState
  import opened Cluster
  import opened Runs
  import opened Invariant
  import opened Progress
  import opened Safety
  import opened Offices

  // ----- a node that votes twice -----

  function ThreeNodes(a: Id, b: Id, c: Id): map<Id, seq<Id>> {
    map[a := [b, c], b := [a, c], c := [a, b]]
  }

  ghost predicate DistinctIds(a: Id, b: Id, c: Id) {
    a != b && b != c && a != c && a != NOBODY && b != NOBODY && c != NOBODY
  }

  lemma Start(a: Id, b: Id, c: Id) returns (s: State)
    requires DistinctIds(a, b, c)
    ensures Reachable(s) && s.nodes.Keys == {a, b, c} && s.elections.Keys == {a, b, c}
    ensures s.nodes[a] == NewNode(a, [b, c]) && s.nodes[b] == NewNode(b, [a, c]) && s.nodes[c] == NewNode(c, [a, b])
    ensures s.elections[a].None? && s.elections[b].None?
  {
    var config := ThreeNodes(a, b, c);
    assert ValidConfig(config);
    s := Init(config);
    StartReachable(config);
  }

  /** What standing for election does to the state. */
  lemma Stand(s: State, n: Id) returns (t: State)
    requires Reachable(s) && Enabled(s, Timeout(n)) && s.nodes[n].id == n
    ensures Reachable(t) && t.nodes == s.nodes[n := BecomeCandidate(s.nodes[n])]
    ensures var req := RequestFor(BecomeCandidate(s.nodes[n]));
            && t.elections == s.elections[n := Some(Election(req, set p | p in s.nodes[n].peers, {}, 1, {n}))]
            && t.voteRequests == s.voteRequests + {req}
            && t.h.grants == s.h.grants + {Grant(n, req.term, n)}
  {
    hide Reachable;
    Reach(s, Timeout(n));
    t := Step(s, Timeout(n));
  }

  /** a and b both stand in term 1. */
  lemma BothStand(a: Id, b: Id, c: Id) returns (s: State)
    requires DistinctIds(a, b, c)
    ensures Reachable(s) && s.nodes.Keys == {a, b, c} && s.elections.Keys == {a, b, c}
    ensures s.nodes[a] == BecomeCandidate(NewNode(a, [b, c])) && s.nodes[b] == BecomeCandidate(NewNode(b, [a, c]))
    ensures s.nodes[c] == NewNode(c, [a, b])
    ensures s.elections[a] == Some(Election(VoteRequest(1, a, 0, 0), {b, c}, {}, 1, {a}))
    ensures VoteRequest(1, a, 0, 0) in s.voteRequests && Grant(b, 1, b) in s.h.grants
  {
    hide Reachable;
    var s0 := Start(a, b, c);
    var s1 := Stand(s0, a);
    assert RequestFor(s1.nodes[a]) == VoteRequest(1, a, 0, 0);
    assert (set p | p in s0.nodes[a].peers) == {b, c};
    s := Stand(s1, b);
  }

  /** c votes for a. */
  lemma OneVote(a: Id, b: Id, c: Id) returns (s: State)
    requires DistinctIds(a, b, c)
    ensures Reachable(s) && s.nodes.Keys == {a, b, c} && s.elections.Keys == {a, b, c}
    ensures s.nodes[a] == BecomeCandidate(NewNode(a, [b, c])) && s.nodes[b] == BecomeCandidate(NewNode(b, [a, c]))
    ensures s.elections[a] == Some(Election(VoteRequest(1, a, 0, 0), {b, c}, {}, 1, {a}))
    ensures VoteRequest(1, a, 0, 0) in s.voteRequests && Grant(b, 1, b) in s.h.grants
    ensures VoteReply(VoteRequest(1, a, 0, 0), c, VoteResponse(1, true)) in s.voteReplies
  {
    hide Reachable;
    var req := VoteRequest(1, a, 0, 0);
    var s0 := BothStand(a, b, c);
    Reach(s0, DeliverVote(c, req));
    assert HandleVoteRequest(s0.nodes[c], req).1 == VoteResponse(1, true);
    s := Step(s0, DeliverVote(c, req));
  }

  /** a counts the vote, hears nothing from b and wins. */
  lemma FirstWins(a: Id, b: Id, c: Id) returns (s: State)
    requires DistinctIds(a, b, c)
    ensures Reachable(s) && s.nodes.Keys == {a, b, c}
    ensures s.nodes[a] == BecomeLeader(BecomeCandidate(NewNode(a, [b, c])))
    ensures s.nodes[b] == BecomeCandidate(NewNode(b, [a, c]))
    ensures VoteRequest(1, a, 0, 0) in s.voteRequests && Grant(b, 1, b) in s.h.grants
  {
    hide Reachable;
    var req := VoteRequest(1, a, 0, 0);
    var reply := VoteReply(req, c, VoteResponse(1, true));
    var s0 := OneVote(a, b, c);
    Reach(s0, AnswerVote(a, reply));
    var s1 := Step(s0, AnswerVote(a, reply));
    assert {b, c} - {c} == {b} && {} + {c} == {c};
    assert s1.elections[a] == Some(Election(req, {b}, {c}, 1, {a}));
    Reach(s1, CountVote(a, c));
    var s2 := Step(s1, CountVote(a, c));
    assert {c} - {c} == {} && {a} + {c} == {a, c};
    assert s2.elections[a] == Some(Election(req, {b}, {}, 2, {a, c}));
    Reach(s2, LoseVote(a, b));
    var s3 := Step(s2, LoseVote(a, b));
    assert {b} - {b} == {};
    assert s3.elections[a].value.waiting == {};
    Reach(s3, CloseElection(a));
    s := Step(s3, CloseElection(a));
  }

  /** a's first heartbeat makes b a follower, and then a's old vote request reaches b. */
  lemma OneVotePerTermFails(a: Id, b: Id, c: Id) returns (s: State)
    requires DistinctIds(a, b, c)
    ensures Reachable(s) && Grant(b, 1, b) in s.h.grants && Grant(b, 1, a) in s.h.grants
    ensures b in s.nodes && s.nodes[b].currentTerm == 1 && s.nodes[b].votedFor == a != b
  {
    var req := VoteRequest(1, a, 0, 0);
    s := FirstWins(a, b, c);
    var n := BecomeCandidate(NewNode(a, [b, c]));
    SetAllAt(n.nextIndex, n.peers, 1, b);
    var heartbeat := AppendMsg(AppendRequest(1, a, 0, 0, [], 0), b);
    Reach(s, Send(a, b));
    s := Step(s, Send(a, b));
    assert heartbeat in s.appends;
    Reach(s, DeliverAppend(heartbeat));
    s := Step(s, DeliverAppend(heartbeat));
    assert s.nodes[b].votedFor == NOBODY && s.nodes[b].currentTerm == 1 && s.nodes[b].log == [SENTINEL];
    Reach(s, DeliverVote(b, req));
    s := Step(s, DeliverVote(b, req));
  }

  // ----- when a node votes twice -----

  /** All votes of v in term u are for one candidate. */
  ghost predicate VotesAgree(s: State, v: Id, u: nat) {
    forall g, k :: g in s.h.grants && k in s.h.grants && g.voter == k.voter == v && g.term == k.term == u ==>
      g.candidate == k.candidate
  }

  /** A request of term u reaches v, which is in that term and follows nobody. */
  predicate Forced(s: State, ev: Event, v: Id, u: nat) {
    && ev.DeliverAppend? && ev.msg.to == v && v in s.nodes
    && ev.msg.req.term == u && ForcesFollower(s.nodes[v], ev.msg.req)
  }

  /** A vote request of term u with a log that is up to date reaches v, which is in that term and has no vote. */
  predicate Asked(s: State, ev: Event, v: Id, u: nat) {
    && ev.DeliverVote? && ev.voter == v && v in s.nodes && ev.voteReq.term == u == s.nodes[v].currentTerm
    && s.nodes[v].votedFor == NOBODY && UpToDate(ev.voteReq, s.nodes[v].log)
  }

  /** In the run, v is turned away in term u and asked for its vote later. */
  ghost predicate ForcedThenAsked(states: seq<State>, events: seq<Event>, v: Id, u: nat)
    requires |states| == |events| + 1
  {
    exists i, j :: 0 <= i < j < |events| && Forced(states[i], events[i], v, u) && Asked(states[j], events[j], v, u)
  }

  /** Votes are never taken back. */
  lemma GrantsGrow(s: State, ev: Event)
    requires Enabled(s, ev)
    ensures s.h.grants <= Step(s, ev).h.grants
  {}

  /** Only two steps add votes: standing for election and answering a request. */
  lemma OtherGrants(s: State, ev: Event)
    requires Enabled(s, ev) && !ev.Timeout? && !ev.DeliverVote?
    ensures Step(s, ev).h.grants == s.h.grants
  {
    hide HandleAppendEntries, HandleAppendResponse, HandleVoteResponse, AppendRequestFor, ApplyNext, BecomeLeader;
  }

  /** A vote on request: in a term v was not yet in, or by a node that is free or already won over. */
  lemma RequestedGrant(n: Node, req: VoteRequest)
    requires HandleVoteRequest(n, req).1.voteGranted
    ensures var m := HandleVoteRequest(n, req).0;
            && m.currentTerm == req.term && m.votedFor == req.candidateId && n.currentTerm <= req.term
            && (n.currentTerm == req.term ==>
                  UpToDate(req, n.log) && (n.votedFor == NOBODY || n.votedFor == req.candidateId))
  {}

  /** Where a new vote comes from. */
  lemma NewGrant(s: State, ev: Event, g: Grant)
    requires Config(s) && Enabled(s, ev) && g in Step(s, ev).h.grants && g !in s.h.grants
    ensures g.voter in s.nodes && g.voter in Step(s, ev).nodes
    ensures var n, m := s.nodes[g.voter], Step(s, ev).nodes[g.voter];
            && m.currentTerm == g.term && m.votedFor == g.candidate && n.currentTerm <= g.term
            && (n.currentTerm == g.term ==>
                  && ev.DeliverVote? && ev.voter == g.voter && ev.voteReq.term == g.term
                  && UpToDate(ev.voteReq, n.log) && (n.votedFor == NOBODY || n.votedFor == g.candidate))
  {
    hide Config, HandleVoteRequest, UpToDate;
    match ev
    case Timeout(c) => IdOf(s, c);
    case DeliverVote(v, req) => if HandleVoteRequest(s.nodes[v], req).1.voteGranted { RequestedGrant(s.nodes[v], req); }
    case _ => OtherGrants(s, ev);
  }

  lemma IdOf(s: State, v: Id)
    requires Config(s) && v in s.nodes
    ensures s.nodes[v].id == v
  {}

  /** A step leaves the vote, takes it away, or casts and records one: in a new term, or when asked. */
  lemma StepCasts(s: State, ev: Event, v: Id)
    requires Enabled(s, ev) && v in s.nodes && s.nodes[v].id == v
    ensures v in Step(s, ev).nodes
    ensures var n, m := s.nodes[v], Step(s, ev).nodes[v];
            || m.votedFor == NOBODY || (m.votedFor == n.votedFor && m.currentTerm == n.currentTerm)
            || (Grant(v, m.currentTerm, m.votedFor) in Step(s, ev).h.grants
                && (n.currentTerm < m.currentTerm || Asked(s, ev, v, m.currentTerm)))
  {
    match ev
    case DeliverAppend(m) => if v == m.to { DeliveryCasts(s.nodes[v], m.req); }
    case AnswerAppend(r) => if v == r.msg.req.leaderId { AnswerCasts(s.nodes[v], r); }
    case _ =>
  }

  /** A request for entries casts no vote. */
  lemma DeliveryCasts(n: Node, req: AppendRequest)
    ensures var m := HandleAppendEntries(n, req).0;
            m.votedFor == NOBODY || (m.votedFor == n.votedFor && m.currentTerm == n.currentTerm)
  {}

  lemma AnswerCasts(n: Node, r: AppendReply)
    ensures var m := HandleAppendResponse(n, r.msg.to, r.msg.req, r.resp);
            m.votedFor == NOBODY || (m.votedFor == n.votedFor && m.currentTerm == n.currentTerm)
  {}

  lemma VoterIsNode(s: State, g: Grant)
    requires Inv(s) && g in s.h.grants
    ensures Config(s) && g.voter in s.nodes && g.term <= s.nodes[g.voter].currentTerm && g.candidate != NOBODY
  {
    hide DataInv, Ballots, VoteRequests, CandidatesCarry, OneVoteBeforeWinner, QuorumsOK, SelfVotes;
    assert GrantOK(s, g);
    ConfigHolds(s);
  }

  lemma ConfigHolds(s: State)
    requires Inv(s)
    ensures Config(s)
  {
    hide Config, LeaderLogs, NodeLogs, Leadership, Ledger, NodesCarry, LeadersCarry, Commits, Appends, AppendReplies,
      Books, Emission, VoteInv;
  }

  /** All votes of v in term u are the one it remembers, or it has left the term. */
  ghost predicate Steady(s: State, v: Id, u: nat) {
    && v in s.nodes && VotesAgree(s, v, u)
    && forall g :: g in s.h.grants && g.voter == v && g.term == u && s.nodes[v].currentTerm == u ==>
         g.candidate == s.nodes[v].votedFor
  }

  /** v has voted for one candidate in term u, and has forgotten it if still in the term. */
  ghost predicate Forgetful(s: State, v: Id, u: nat) {
    && v in s.nodes && VotesAgree(s, v, u) && u <= s.nodes[v].currentTerm
    && (s.nodes[v].currentTerm == u ==> s.nodes[v].votedFor == NOBODY && s.nodes[v].role == Follower)
  }

  lemma StepSteady(s: State, ev: Event, v: Id, u: nat)
    requires Inv(s) && Enabled(s, ev) && Steady(s, v, u) && !Forced(s, ev, v, u)
    ensures Steady(Step(s, ev), v, u)
  {
    hide Inv, Config, Step, Enabled, Evolves;
    var t := Step(s, ev);
    ConfigHolds(s);
    StepKeepsInv(s, ev);
    TermsRise(s, t, v);
    if s.nodes[v].votedFor != NOBODY { VoteForgottenIff(s, ev, v); }
    forall g | g in t.h.grants && g.voter == v && g.term == u
      ensures t.nodes[v].currentTerm == u ==> g.candidate == t.nodes[v].votedFor
      ensures g in s.h.grants ==> u <= s.nodes[v].currentTerm
      ensures g !in s.h.grants ==> t.nodes[v].currentTerm == u
    {
      if g in s.h.grants { VoterIsNode(s, g); } else { NewGrant(s, ev, g); }
    }
  }

  lemma StepForced(s: State, ev: Event, v: Id, u: nat)
    requires Inv(s) && Enabled(s, ev) && Forced(s, ev, v, u)
    ensures s.nodes[v].role == Candidate && Grant(v, u, v) in s.h.grants
    ensures VotesAgree(s, v, u) ==> Forgetful(Step(s, ev), v, u)
  {
    hide Config, LeaderLogs, NodeLogs, Ledger, NodesCarry, LeadersCarry, Commits, AppendReplies,
      Books, Emission, GrantsOK, OneVoteBeforeWinner, QuorumsOK, Ballots, VoteRequests, CandidatesCarry, Backed;
    assert AppendOK(s, ev.msg);
  }

  lemma StepForgetful(s: State, ev: Event, v: Id, u: nat)
    requires Inv(s) && Enabled(s, ev) && Forgetful(s, v, u) && !Asked(s, ev, v, u)
    ensures Forgetful(Step(s, ev), v, u)
  {
    hide Inv, Config, Step, Enabled, Evolves;
    var t := Step(s, ev);
    ConfigHolds(s);
    StepKeepsInv(s, ev);
    TermsRise(s, t, v);
    StepOffice(s, ev, v);
    assert s.nodes[v].id == v by { IdOf(s, v); }
    StepCasts(s, ev, v);
    forall g | g in t.h.grants && g.voter == v && g.term == u ensures g in s.h.grants {
      if g !in s.h.grants { NewGrant(s, ev, g); }
    }
  }

  /** As long as nobody asks it, a node that has forgotten its vote does not vote again. */
  lemma {:induction false} RunForgetful(states: seq<State>, events: seq<Event>, v: Id, u: nat)
    requires Trace(states, events) && Inv(states[0]) && Forgetful(states[0], v, u)
    requires forall j :: 0 <= j < |events| ==> !Asked(states[j], events[j], v, u)
    ensures VotesAgree(states[|events|], v, u)
    decreases |events|
  {
    hide Inv, Step, Enabled, Asked;
    if events != [] {
      DropFirst(states, events);
      StepKeepsInv(states[0], events[0]);
      StepForgetful(states[0], events[0], v, u);
      forall j | 0 <= j < |events[1..]| ensures !Asked(states[1..][j], events[1..][j], v, u) {
        assert !Asked(states[j + 1], events[j + 1], v, u);
      }
      RunForgetful(states[1..], events[1..], v, u);
    }
  }

  lemma {:induction false} RunSteady(states: seq<State>, events: seq<Event>, v: Id, u: nat)
    requires Trace(states, events) && Inv(states[0]) && Steady(states[0], v, u)
    requires !ForcedThenAsked(states, events, v, u)
    ensures VotesAgree(states[|events|], v, u)
    decreases |events|
  {
    hide Inv, Step, Enabled, Asked, Forced;
    if events != [] {
      DropFirst(states, events);
      StepKeepsInv(states[0], events[0]);
      if Forced(states[0], events[0], v, u) {
        StepForced(states[0], events[0], v, u);
        forall j | 0 <= j < |events[1..]| ensures !Asked(states[1..][j], events[1..][j], v, u) {
          assert !Asked(states[j + 1], events[j + 1], v, u);
        }
        RunForgetful(states[1..], events[1..], v, u);
      } else {
        StepSteady(states[0], events[0], v, u);
        TailForcedThenAsked(states, events, v, u);
        RunSteady(states[1..], events[1..], v, u);
      }
    }
  }

  lemma TailForcedThenAsked(states: seq<State>, events: seq<Event>, v: Id, u: nat)
    requires |states| == |events| + 1 && events != []
    ensures ForcedThenAsked(states[1..], events[1..], v, u) ==> ForcedThenAsked(states, events, v, u)
  {
    hide Asked, Forced;
    if i, j :| 0 <= i < j < |events[1..]|
               && Forced(states[1..][i], events[1..][i], v, u) && Asked(states[1..][j], events[1..][j], v, u) {
      assert Forced(states[i + 1], events[i + 1], v, u) && Asked(states[j + 1], events[j + 1], v, u);
    }
  }

  /** Every state of a run has the invariant, and all votes of it are still there at the end. */
  lemma {:induction false} AlongTheRun(states: seq<State>, events: seq<Event>, i: nat)
    requires Trace(states, events) && Inv(states[0]) && i <= |events|
    ensures Inv(states[i]) && states[i].h.grants <= states[|events|].h.grants
    decreases |events|
  {
    hide Inv, Step, Enabled, Evolves;
    if events != [] {
      DropFirst(states, events);
      StepKeepsInv(states[0], events[0]);
      GrantsGrow(states[0], events[0]);
      AlongTheRun(states[1..], events[1..], if i == 0 then 0 else i - 1);
    }
  }

  /** Asked for its vote in a term in which it has none, a node gives it to whoever asks. */
  lemma AskedGrants(s: State, ev: Event, v: Id, u: nat)
    requires Enabled(s, ev) && Asked(s, ev, v, u)
    ensures Grant(v, u, ev.voteReq.candidateId) in Step(s, ev).h.grants && ev.voteReq.candidateId != v
  {}

  /**
   * When one vote per term fails: in a run from the start, a node votes for two candidates in a term if and
   * only if a request of that term's leader reaches it while it follows nobody, and later a vote request
   * of the term, with a log that is up to date, reaches it in the term while it has no vote.
   */
  lemma VotesTwiceIff(states: seq<State>, events: seq<Event>, v: Id, u: nat)
    requires Trace(states, events) && Initial(states[0]) && v in states[0].nodes
    ensures !VotesAgree(states[|events|], v, u) <==> ForcedThenAsked(states, events, v, u)
  {
    hide Inv, Step, Enabled, Asked, Forced;
    StartInv(states[0]);
    if i, j :| 0 <= i < j < |events| && Forced(states[i], events[i], v, u) && Asked(states[j], events[j], v, u) {
      AlongTheRun(states, events, i);
      AlongTheRun(states, events, j + 1);
      StepForced(states[i], events[i], v, u);
      AskedGrants(states[j], events[j], v, u);
      assert Grant(v, u, v) in states[|events|].h.grants;
    } else {
      assert Steady(states[0], v, u);
      RunSteady(states, events, v, u);
    }
  }

  // ----- the step that adds the second vote -----

  /** Whom a node remembers, it has voted for. */
  ghost predicate Remembered(s: State, v: Id) {
    && v in s.nodes
    && (s.nodes[v].votedFor == NOBODY || Grant(v, s.nodes[v].currentTerm, s.nodes[v].votedFor) in s.h.grants)
  }

  lemma StepRemembered(s: State, ev: Event, v: Id)
    requires Config(s) && Enabled(s, ev) && Remembered(s, v)
    ensures Remembered(Step(s, ev), v)
  {
    hide Config, Step, Enabled;
    assert s.nodes[v].id == v by { IdOf(s, v); }
    GrantsGrow(s, ev);
    StepCasts(s, ev, v);
  }

  lemma {:induction false} RunRemembered(s: State, events: seq<Event>, t: State, v: Id)
    requires Inv(s) && Remembered(s, v) && Run(s, events, t)
    ensures Remembered(t, v)
    decreases |events|
  {
    hide Inv, Step, Enabled, Run, Remembered, Evolves, Config;
    if events == [] {
      NoEvents(s, t);
    } else {
      FirstEvent(s, events, t);
      ConfigHolds(s);
      StepKeepsInv(s, events[0]);
      StepRemembered(s, events[0], v);
      RunRemembered(Step(s, events[0]), events[1..], t, v);
    }
  }

  /**
   * A node that has voted in a term gives its vote to a new candidate of the term if and only if the request
   * reaches it in the term, with a log that is up to date, while it remembers no vote.
   */
  lemma SecondVoteIff(s: State, v: Id, req: VoteRequest)
    requires Reachable(s) && Enabled(s, DeliverVote(v, req))
    requires Grant(v, req.term, req.candidateId) !in s.h.grants
    requires exists g :: g in s.h.grants && g.voter == v && g.term == req.term
    ensures Grant(v, req.term, req.candidateId) in Step(s, DeliverVote(v, req)).h.grants <==>
            Asked(s, DeliverVote(v, req), v, req.term)
  {
    hide Inv, Run, Config, Step, Initial;
    var start, events :| Initial(start) && Run(start, events, s);
    StartInv(start);
    RunKeepsInv(start, events, s);
    ConfigHolds(s);
    assert v in start.nodes;
    StartRemembered(start, v);
    RunRemembered(start, events, s, v);
    var g :| g in s.h.grants && g.voter == v && g.term == req.term;
    VoterIsNode(s, g);
    if Asked(s, DeliverVote(v, req), v, req.term) {
      AskedGrants(s, DeliverVote(v, req), v, req.term);
    }
    if Grant(v, req.term, req.candidateId) in Step(s, DeliverVote(v, req)).h.grants {
      NewGrant(s, DeliverVote(v, req), Grant(v, req.term, req.candidateId));
    }
  }

  lemma StartRemembered(s: State, v: Id)
    requires Initial(s) && v in s.nodes
    ensures Remembered(s, v)
  {}
}
