/** Replication messages arriving: requests at followers, answers at leaders; and the applier. */
module Delivery {
  import opened Types
  import opened Logs
  import opened NodeState
  import opened Cluster
  import opened Invariant
  import opened Progress
  import opened Quiet
  import opened Elections
  import opened Replication
  import opened Following
  import opened CommitRule

  // ----- parts of the invariant -----

  lemma MessagesHold(s: State)
    requires Inv(s)
    ensures Appends(s) && AppendReplies(s) && Books(s)
  {
    hide Config, LeaderLogs, NodeLogs, Leadership, Ledger, NodesCarry, LeadersCarry, Commits, Appends, AppendReplies,
      Books, Emission, GrantsOK, OneVoteBeforeWinner, QuorumsOK, SelfVotes, Ballots, VoteRequests, CandidatesCarry;
  }

  // ----- an answer on its way -----

  lemma ReplyKeepsInv(s: State, t: State, r: AppendReply)
    requires Inv(s) && t == s.(appendReplies := s.appendReplies + {r}) && ReplyOK(s, r)
    ensures Inv(t) && Evolves(s, t)
  {
    hide SameCore, SameStandings, Evolves, Config, LeaderLogs, NodeLogs, Leadership, Ledger, NodesCarry, LeadersCarry,
      Commits, Appends, AppendReplies, Books, Emission, GrantsOK, OneVoteBeforeWinner, QuorumsOK, SelfVotes, Ballots,
      VoteRequests, CandidatesCarry, ReplyOK;
    SameHistoryCore(s, t);
    CoreParts(s, t);
    ReplyStays(s, t, r);
    MessagesStay(s, t);
    SameHistoryKeeps(s, t);
    CoreKeepsInv(s, t);
  }

  // ----- accepting the sender as leader -----

  /** The winner's voters remember their vote, so a node that forgets it was not one of them. */
  lemma NotInQuorum(s: State, m: AppendMsg)
    requires Leadership(s) && QuorumsOK(s) && SelfVotes(s) && AppendOK(s, m)
    requires m.to in s.nodes && s.nodes[m.to].role != Follower && s.nodes[m.to].currentTerm == m.req.term
    ensures m.req.term in s.h.quorum && m.to !in s.h.quorum[m.req.term]
  {
    hide Backed;
    assert QuorumOK(s, m.req.term);
  }

  lemma AcceptIsDemotion(s: State, m: AppendMsg)
    requires Leadership(s) && QuorumsOK(s) && SelfVotes(s) && AppendOK(s, m)
    requires m.to in s.nodes && s.nodes[m.to].role != Follower && s.nodes[m.to].currentTerm == m.req.term
    ensures IsDemotion(s, Put(s, m.to, AcceptLeader(s.nodes[m.to], m.req)), m.to)
  {
    hide Backed;
    NotInQuorum(s, m);
    assert s.nodes[m.to].role != Leader;
  }

  lemma NewHintStanding(s: State, v: Id, leader: Id)
    requires v in s.nodes
    ensures var t := Put(s, v, s.nodes[v].(leaderId := leader)); IsQuiet(s, t, v) && SameStandings(s, t)
  {}

  /** A follower that only learns its leader's name. */
  lemma NewHintKeepsInv(s: State, v: Id, leader: Id)
    requires Inv(s) && v in s.nodes
    ensures var t := Put(s, v, s.nodes[v].(leaderId := leader)); Inv(t) && Evolves(s, t)
  {
    hide IsQuiet, SameStandings, Evolves, Config, LeaderLogs, NodeLogs, Leadership, Ledger, NodesCarry, LeadersCarry,
      Commits, Appends, AppendReplies, Books, Emission, GrantsOK, OneVoteBeforeWinner, QuorumsOK, SelfVotes, Ballots,
      VoteRequests, CandidatesCarry;
    var t := Put(s, v, s.nodes[v].(leaderId := leader));
    NewHintStanding(s, v, leader);
    QuietKeepsData(s, t, v);
    StandingVoteInv(s, t);
  }

  lemma AcceptKeepsInv(s: State, m: AppendMsg)
    requires Inv(s) && AppendOK(s, m) && m.to in s.nodes && s.nodes[m.to].currentTerm == m.req.term
    ensures var t := Put(s, m.to, AcceptLeader(s.nodes[m.to], m.req)); Inv(t) && Evolves(s, t)
  {
    if s.nodes[m.to].role == Follower {
      hide Inv, Evolves, AppendOK;
      NewHintKeepsInv(s, m.to, m.req.leaderId);
    } else {
      hide Evolves, AppendOK, IsDemotion, Config, LeaderLogs, NodeLogs, Leadership, Ledger, NodesCarry, LeadersCarry,
        Commits, Appends, AppendReplies, Books, Emission, GrantsOK, OneVoteBeforeWinner, QuorumsOK, SelfVotes, Ballots,
        VoteRequests, CandidatesCarry;
      AcceptIsDemotion(s, m);
      DemotionKeepsInv(s, Put(s, m.to, AcceptLeader(s.nodes[m.to], m.req)), m.to);
    }
  }

  // ----- a request arrives -----

  lemma RefusalReplyOK(s: State, m: AppendMsg, term: nat)
    requires AppendOK(s, m)
    ensures term > m.req.term ==> ReplyOK(s, AppendReply(m, AppendResponse(term, false, 0)))
    ensures forall log: Entries :: !PrevMatches(log, m.req) ==>
              ReplyOK(s, AppendReply(m, AppendResponse(term, false, ConflictIndex(log, m.req))))
  {
    hide AppendOK;
  }

  /** Since the slice reaches the leader's commit index, so does the follower's log: no clipping takes place. */
  lemma CommitIsMax(after: Entries, leader: Entries, log: Entries, e: nat, commitIndex: nat, leaderCommit: nat)
    requires Adopts(log, leader, e, after) && leaderCommit <= e
    ensures FollowerCommit(commitIndex, leaderCommit, LastIndex(after)) == Max(commitIndex, leaderCommit)
  {}

  lemma TakeIsFollow(s: State, t: State, m: AppendMsg)
    requires AppendOK(s, m) && LeaderLogs(s) && LeadersCarry(s)
    requires m.to in s.nodes && Grounded(s, s.nodes[m.to].log) && PrevMatches(s.nodes[m.to].log, m.req)
    requires s.nodes[m.to].role == Follower && s.nodes[m.to].currentTerm == m.req.term
    requires Backed(s, s.nodes[m.to].log, s.nodes[m.to].commitIndex, s.nodes[m.to].currentTerm)
    requires t == Put(s, m.to, TakeEntries(s.nodes[m.to], m.req)).(
                    appendReplies := s.appendReplies + {AppendReply(m, AppendResponse(m.req.term, true, 0))},
                    h := s.h.(acked := s.h.acked[(m.to, m.req.term) := Max(Acked(s, m.to, m.req.term), EndOf(m.req))]))
    ensures IsFollow(s, t, m) && !Splice(s.nodes[m.to].log, m.req.entries, s.nodes[m.to].commitIndex).panicked
  {
    var n := s.nodes[m.to];
    SliceIsAdopted(s, n, m);
    hide LeaderLogs, LeadersCarry, Backed, Grounded;
    CommitIsMax(t.nodes[m.to].log, s.h.leaderLog[m.req.term], n.log, EndOf(m.req), n.commitIndex, m.req.leaderCommit);
  }

  lemma TakeIsFollowInv(s: State, t: State, m: AppendMsg)
    requires Inv(s) && AppendOK(s, m)
    requires m.to in s.nodes && PrevMatches(s.nodes[m.to].log, m.req)
    requires s.nodes[m.to].role == Follower && s.nodes[m.to].currentTerm == m.req.term
    requires t == Put(s, m.to, TakeEntries(s.nodes[m.to], m.req)).(
                    appendReplies := s.appendReplies + {AppendReply(m, AppendResponse(m.req.term, true, 0))},
                    h := s.h.(acked := s.h.acked[(m.to, m.req.term) := Max(Acked(s, m.to, m.req.term), EndOf(m.req))]))
    ensures IsFollow(s, t, m) && !Splice(s.nodes[m.to].log, m.req.entries, s.nodes[m.to].commitIndex).panicked
  {
    hide Config, LeaderLogs, Leadership, Ledger, NodesCarry, LeadersCarry, Appends, AppendReplies, Books, Emission,
      GrantsOK, OneVoteBeforeWinner, QuorumsOK, SelfVotes, Ballots, VoteRequests, CandidatesCarry, Grounded, Backed,
      AppendOK, IsFollow;
    assert Grounded(s, s.nodes[m.to].log);
    assert Backed(s, s.nodes[m.to].log, s.nodes[m.to].commitIndex, s.nodes[m.to].currentTerm);
    TakeIsFollow(s, t, m);
  }

  /** What a follower of the request's term does with it; `term` is the term a refusal carries. */
  function Answered(s: State, m: AppendMsg, term: nat): State
    requires m.to in s.nodes
  {
    if PrevMatches(s.nodes[m.to].log, m.req) then
      Put(s, m.to, TakeEntries(s.nodes[m.to], m.req)).(
        appendReplies := s.appendReplies + {AppendReply(m, AppendResponse(m.req.term, true, 0))},
        h := s.h.(acked := s.h.acked[(m.to, m.req.term) := Max(Acked(s, m.to, m.req.term), EndOf(m.req))]))
    else
      s.(appendReplies := s.appendReplies
                          + {AppendReply(m, AppendResponse(term, false, ConflictIndex(s.nodes[m.to].log, m.req)))})
  }

  lemma AnsweredKeepsInv(s: State, m: AppendMsg, term: nat)
    requires Inv(s) && AppendOK(s, m) && m.to in s.nodes
    requires s.nodes[m.to].role == Follower && s.nodes[m.to].currentTerm == m.req.term
    ensures Inv(Answered(s, m, term)) && Evolves(s, Answered(s, m, term))
    ensures PrevMatches(s.nodes[m.to].log, m.req) ==>
              !Splice(s.nodes[m.to].log, m.req.entries, s.nodes[m.to].commitIndex).panicked
  {
    hide Inv, Evolves, AppendOK, ReplyOK, IsFollow;
    var t := Answered(s, m, term);
    if PrevMatches(s.nodes[m.to].log, m.req) {
      TakeIsFollowInv(s, t, m);
      FollowKeepsInv(s, t, m);
    } else {
      RefusalReplyOK(s, m, term);
      ReplyKeepsInv(s, t, AppendReply(m, AppendResponse(term, false, ConflictIndex(s.nodes[m.to].log, m.req))));
    }
  }

  /** The three stages of a request of no lower a term: step down if behind, accept the leader, answer. */
  lemma DeliverInStages(s: State, m: AppendMsg, down: State, led: State)
    requires m.to in s.nodes && down == Put(s, m.to, StepDown(s.nodes[m.to], m.req.term))
    requires down.nodes[m.to].currentTerm == m.req.term
    requires led == Put(down, m.to, AcceptLeader(down.nodes[m.to], m.req))
    requires PrevMatches(led.nodes[m.to].log, m.req) ==>
               !Splice(led.nodes[m.to].log, m.req.entries, led.nodes[m.to].commitIndex).panicked
    ensures AnswerAppendMsg(s, m) == Answered(led, m, s.nodes[m.to].currentTerm)
    ensures HandleAppendEntries(s.nodes[m.to], m.req).1.Some?
  {
    var t := AnswerAppendMsg(s, m);
    var u := Answered(led, m, s.nodes[m.to].currentTerm);
    assert Acked(led, m.to, m.req.term) == Acked(s, m.to, m.req.term);
    assert t.nodes == u.nodes;
  }

  lemma AcceptedStanding(n: Node, req: AppendRequest)
    requires n.currentTerm == req.term
    ensures AcceptLeader(n, req).role == Follower && AcceptLeader(n, req).currentTerm == req.term
  {}

  lemma StaleDelivery(s: State, m: AppendMsg)
    requires Inv(s) && Enabled(s, DeliverAppend(m)) && AppendOK(s, m) && m.req.term < s.nodes[m.to].currentTerm
    ensures Inv(Step(s, DeliverAppend(m))) && Evolves(s, Step(s, DeliverAppend(m)))
    ensures HandleAppendEntries(s.nodes[m.to], m.req).1.Some?
  {
    hide Inv, Evolves, AppendOK, ReplyOK;
    var n := s.nodes[m.to];
    var t := AnswerAppendMsg(s, m);
    RefusalReplyOK(s, m, n.currentTerm);
    assert t.nodes == s.nodes;
    ReplyKeepsInv(s, t, AppendReply(m, AppendResponse(n.currentTerm, false, 0)));
  }

  /** Every request is answered: the handler never reaches the panic on committed entries. */
  lemma DeliverAppendKeepsInv(s: State, m: AppendMsg)
    requires Inv(s) && Enabled(s, DeliverAppend(m))
    ensures Inv(Step(s, DeliverAppend(m))) && Evolves(s, Step(s, DeliverAppend(m)))
    ensures HandleAppendEntries(s.nodes[m.to], m.req).1.Some?
  {
    hide Inv, Evolves, AppendOK, Answered;
    MessagesHold(s);
    if m.req.term < s.nodes[m.to].currentTerm {
      StaleDelivery(s, m);
    } else {
      var down := Put(s, m.to, StepDown(s.nodes[m.to], m.req.term));
      StepDownKeepsInv(s, m.to, m.req.term);
      MessagesHold(down);
      var led := Put(down, m.to, AcceptLeader(down.nodes[m.to], m.req));
      AcceptKeepsInv(down, m);
      EvolvesTrans(s, down, led);
      MessagesHold(led);
      AcceptedStanding(down.nodes[m.to], m.req);
      hide AcceptLeader, StepDown;
      AnsweredKeepsInv(led, m, s.nodes[m.to].currentTerm);
      DeliverInStages(s, m, down, led);
      EvolvesTrans(s, led, Answered(led, m, s.nodes[m.to].currentTerm));
    }
  }

  // ----- an answer arrives -----

  /** A leader changes its books and raises its commit index. */
  ghost predicate IsBookkeeping(s: State, t: State, l: Id) {
    && l in s.nodes && l in t.nodes && s.nodes[l].role == Leader && s.nodes[l].commitIndex <= t.nodes[l].commitIndex
    && t == Put(s, l, s.nodes[l].(nextIndex := t.nodes[l].nextIndex, matchIndex := t.nodes[l].matchIndex,
                                  commitIndex := t.nodes[l].commitIndex))
    && BookOK(s, t.nodes[l]) && Backed(s, t.nodes[l].log, t.nodes[l].commitIndex, t.nodes[l].currentTerm)
  }

  lemma BookkeepingCore(s: State, t: State, l: Id)
    requires IsBookkeeping(s, t, l)
    ensures SameCore(s, t)
  {
    hide BookOK, Backed;
    assert forall n :: n in s.nodes ==> Settled(s.nodes[n], t.nodes[n]);
    hide Settled;
  }

  lemma BookkeepingCommits(s: State, t: State, l: Id)
    requires IsBookkeeping(s, t, l) && Evolves(s, t) && Commits(s)
    ensures Commits(t)
  {
    hide Evolves, BookOK;
    forall n | n in t.nodes
      ensures Backed(t, t.nodes[n].log, t.nodes[n].commitIndex, t.nodes[n].currentTerm)
    {
      var m := t.nodes[n];
      BackedStays(s, t, m.log, m.log, m.commitIndex, m.currentTerm, m.currentTerm);
    }
  }

  lemma BookkeepingBooks(s: State, t: State, l: Id)
    requires IsBookkeeping(s, t, l) && Evolves(s, t) && Config(s) && Books(s) && Emission(s)
    ensures Books(t) && Emission(t)
  {
    hide Evolves, Config, BookOK, Backed;
    PeersAreNodes(s);
    forall n | n in t.nodes && t.nodes[n].role == Leader ensures BookOK(t, t.nodes[n]) {
      BookStays(s, t, t.nodes[n], t.nodes[n]);
    }
  }

  lemma BookkeepingKeepsInv(s: State, t: State, l: Id)
    requires Inv(s) && IsBookkeeping(s, t, l) && t.appends == s.appends && t.appendReplies == s.appendReplies
    ensures Inv(t) && Evolves(s, t)
  {
    hide IsBookkeeping, SameCore, SameStandings, Evolves, Config, LeaderLogs, NodeLogs, Leadership, Ledger, NodesCarry,
      LeadersCarry, Commits, Appends, AppendReplies, Books, Emission, GrantsOK, OneVoteBeforeWinner, QuorumsOK,
      SelfVotes, Ballots, VoteRequests, CandidatesCarry;
    BookkeepingCore(s, t, l);
    CoreParts(s, t);
    BookkeepingCommits(s, t, l);
    BookkeepingBooks(s, t, l);
    MessagesStay(s, t);
    CoreKeepsInv(s, t);
  }

  /** The last entry of a batch carries the position where the request ends. */
  lemma BatchEnd(s: State, r: AppendReply)
    requires LeaderLogs(s) && ReplyOK(s, r) && r.msg.req.entries != []
    ensures LastOf(r.msg.req.entries) == EndOf(r.msg.req)
  {
    hide Backed;
    var leader := s.h.leaderLog[r.msg.req.term];
    assert Grounded(s, leader);
    assert r.msg.req.entries[|r.msg.req.entries| - 1] == leader[EndOf(r.msg.req)];
  }

  /** The last index of a confirmed batch is what the peer has confirmed, whatever older answers said. */
  lemma ConfirmedBook(s: State, n: Node, r: AppendReply)
    requires BookOK(s, n) && LeaderLogs(s) && ReplyOK(s, r) && r.resp.success
    requires n.currentTerm == r.msg.req.term && n.log == s.h.leaderLog[n.currentTerm]
    ensures BookOK(s, Booked(n, r.msg.to, r.msg.req))
  {
    if r.msg.req.entries != [] { BatchEnd(s, r); }
    hide Backed, LeaderLogs;
  }

  /** A rejection moves the next index back, never below 1. */
  lemma RejectedBook(s: State, n: Node, r: AppendReply)
    requires BookOK(s, n) && ReplyOK(s, r) && !r.resp.success && r.resp.conflictIndex > 0
    requires n.currentTerm == r.msg.req.term && n.log == s.h.leaderLog[n.currentTerm]
    ensures BookOK(s, n.(nextIndex := n.nextIndex[r.msg.to := r.resp.conflictIndex]))
  {
    hide Backed;
  }

  /** Whatever the commit rule picks is chosen. */
  lemma AdvanceIsBacked(s: State, l: Id, n: Node)
    requires Config(s) && Leadership(s) && l in s.nodes && s.nodes[l].role == Leader && BookOK(s, n)
    requires n.id == l && n.peers == s.nodes[l].peers
    requires n.log == s.nodes[l].log && n.currentTerm == s.nodes[l].currentTerm
    requires Backed(s, n.log, n.commitIndex, n.currentTerm)
    ensures Backed(s, n.log, AdvanceCommitIndex(n).commitIndex, n.currentTerm)
  {
    hide Config;
    var index := HighestCommittable(n, LastIndex(n.log));
    if index != n.commitIndex {
      CommittableIsChosen(s, l, n, index);
      assert BackedBy(s, n.log, index, n.currentTerm, n.currentTerm, index);
    }
  }

  lemma AdvanceBook(s: State, n: Node)
    requires BookOK(s, n)
    ensures BookOK(s, AdvanceCommitIndex(n)) && n.commitIndex <= AdvanceCommitIndex(n).commitIndex
  {}

  lemma SuccessIsBookkeeping(s: State, l: Id, r: AppendReply)
    requires Config(s) && Leadership(s) && l in s.nodes && l == r.msg.req.leaderId && s.nodes[l].role == Leader
    requires s.nodes[l].id == l && s.nodes[l].currentTerm == r.msg.req.term
    requires r.resp.success && r.resp.term <= r.msg.req.term
    requires BookOK(s, Booked(s.nodes[l], r.msg.to, r.msg.req))
    requires Backed(s, s.nodes[l].log, s.nodes[l].commitIndex, s.nodes[l].currentTerm)
    ensures IsBookkeeping(s, TakeAppendReply(s, r), l)
  {
    hide Config, Leadership, BookOK, Backed;
    AdvanceIsBacked(s, l, Booked(s.nodes[l], r.msg.to, r.msg.req));
    AdvanceBook(s, Booked(s.nodes[l], r.msg.to, r.msg.req));
  }

  lemma RejectionIsBookkeeping(s: State, l: Id, r: AppendReply)
    requires l in s.nodes && l == r.msg.req.leaderId && s.nodes[l].role == Leader
    requires s.nodes[l].currentTerm == r.msg.req.term && !r.resp.success && r.resp.term <= r.msg.req.term
    requires r.resp.conflictIndex > 0
    requires BookOK(s, s.nodes[l].(nextIndex := s.nodes[l].nextIndex[r.msg.to := r.resp.conflictIndex]))
    requires Backed(s, s.nodes[l].log, s.nodes[l].commitIndex, s.nodes[l].currentTerm)
    ensures IsBookkeeping(s, TakeAppendReply(s, r), l)
  {
    hide BookOK, Backed;
  }

  lemma ReplyIsBookkeeping(s: State, r: AppendReply)
    requires Config(s) && LeaderLogs(s) && Leadership(s) && ReplyOK(s, r) && r.msg.req.leaderId in s.nodes
    requires s.nodes[r.msg.req.leaderId].role == Leader && s.nodes[r.msg.req.leaderId].currentTerm == r.msg.req.term
    requires r.resp.term <= r.msg.req.term && BookOK(s, s.nodes[r.msg.req.leaderId])
    requires var n := s.nodes[r.msg.req.leaderId]; Backed(s, n.log, n.commitIndex, n.currentTerm)
    ensures IsBookkeeping(s, TakeAppendReply(s, r), r.msg.req.leaderId)
  {
    hide BookOK, Backed, LeaderLogs, IsBookkeeping;
    var l := r.msg.req.leaderId;
    var n := s.nodes[l];
    assert r.resp.success || r.resp.conflictIndex > 0;
    assert n.id == l && n.log == s.h.leaderLog[n.currentTerm];
    hide Config, Leadership, ReplyOK;
    if r.resp.success {
      ConfirmedBook(s, n, r);
      SuccessIsBookkeeping(s, l, r);
    } else {
      RejectedBook(s, n, r);
      RejectionIsBookkeeping(s, l, r);
    }
  }

  lemma ReplyIsBookkeepingInv(s: State, r: AppendReply)
    requires Inv(s) && ReplyOK(s, r) && r.msg.req.leaderId in s.nodes && r.resp.term <= r.msg.req.term
    requires s.nodes[r.msg.req.leaderId].role == Leader && s.nodes[r.msg.req.leaderId].currentTerm == r.msg.req.term
    ensures IsBookkeeping(s, TakeAppendReply(s, r), r.msg.req.leaderId)
  {
    hide Config, LeaderLogs, NodeLogs, Leadership, Ledger, NodesCarry, LeadersCarry, Appends, AppendReplies, Emission,
      GrantsOK, OneVoteBeforeWinner, QuorumsOK, SelfVotes, Ballots, VoteRequests, CandidatesCarry, ReplyOK, Backed,
      BookOK, IsBookkeeping;
    assert BookOK(s, s.nodes[r.msg.req.leaderId]);
    ReplyIsBookkeeping(s, r);
  }

  lemma AnswerAppendKeepsInv(s: State, r: AppendReply)
    requires Inv(s) && Enabled(s, AnswerAppend(r))
    ensures Inv(Step(s, AnswerAppend(r))) && Evolves(s, Step(s, AnswerAppend(r)))
  {
    hide Inv, Evolves, ReplyOK, BookOK, Backed, IsBookkeeping;
    var l := r.msg.req.leaderId;
    var n := s.nodes[l];
    var t := TakeAppendReply(s, r);
    MessagesHold(s);
    if r.resp.term > n.currentTerm {
      StepDownKeepsInv(s, l, r.resp.term);
    } else if n.role != Leader || n.currentTerm != r.msg.req.term {
      assert t.nodes == s.nodes;
      assert t == s;
      EvolvesRefl(s);
    } else {
      ReplyIsBookkeepingInv(s, r);
      BookkeepingKeepsInv(s, t, l);
    }
  }

  // ----- committed entries leave the node -----

  /** Only the applier's position, the channel and the record of what was emitted change. */
  ghost predicate IsEmission(s: State, t: State, n: Id) {
    && n in s.nodes && n in t.nodes && n in s.h.emitted && s.nodes[n].lastApplied <= t.nodes[n].lastApplied
    && t == Put(s, n, s.nodes[n].(lastApplied := t.nodes[n].lastApplied, commitCh := t.nodes[n].commitCh)).(
              h := s.h.(emitted := t.h.emitted))
    && t.h.emitted.Keys == s.h.emitted.Keys
  }

  lemma EmissionCore(s: State, t: State, n: Id)
    requires IsEmission(s, t, n)
    ensures SameCore(s, t)
  {}

  lemma EmissionCommits(s: State, t: State, n: Id)
    requires IsEmission(s, t, n) && Evolves(s, t) && Commits(s) && t.nodes[n].lastApplied <= t.nodes[n].commitIndex
    ensures Commits(t)
  {
    hide Evolves;
    forall i | i in t.nodes
      ensures Backed(t, t.nodes[i].log, t.nodes[i].commitIndex, t.nodes[i].currentTerm)
    {
      var m := t.nodes[i];
      BackedStays(s, t, m.log, m.log, m.commitIndex, m.currentTerm, m.currentTerm);
    }
  }

  lemma EmissionBooks(s: State, t: State, n: Id)
    requires IsEmission(s, t, n) && Evolves(s, t) && Config(s) && Books(s)
    ensures Books(t)
  {
    hide Evolves, Config, BookOK;
    PeersAreNodes(s);
    forall i | i in t.nodes && t.nodes[i].role == Leader ensures BookOK(t, t.nodes[i]) {
      BookStays(s, t, s.nodes[i], t.nodes[i]);
    }
  }

  lemma EmissionKeepsInv(s: State, t: State, n: Id)
    requires Inv(s) && IsEmission(s, t, n) && Emission(t)
    requires n in t.nodes && t.nodes[n].lastApplied <= t.nodes[n].commitIndex
    requires t.appends == s.appends && t.appendReplies == s.appendReplies
    ensures Inv(t) && Evolves(s, t)
  {
    hide IsEmission, SameCore, SameStandings, Evolves, Config, LeaderLogs, NodeLogs, Leadership, Ledger, NodesCarry,
      LeadersCarry, Commits, Appends, AppendReplies, Books, Emission, GrantsOK, OneVoteBeforeWinner, QuorumsOK,
      SelfVotes, Ballots, VoteRequests, CandidatesCarry;
    EmissionCore(s, t, n);
    CoreParts(s, t);
    EmissionCommits(s, t, n);
    EmissionBooks(s, t, n);
    MessagesStay(s, t);
    CoreKeepsInv(s, t);
  }

  /** A push appends to what was emitted and keeps the channel its last part, whether or not it was full. */
  lemma PushEmission(n: Node, emitted: seq<Entry>)
    requires EmissionOK(n, emitted) && CanApply(n)
    ensures EmissionOK(ApplyNext(n), emitted + [n.log[n.lastApplied + 1]])
  {
    assert n.log[1..n.lastApplied + 2] == emitted + [n.log[n.lastApplied + 1]];
  }

  lemma PushIsEmission(s: State, n: Id)
    requires Emission(s) && Enabled(s, Apply(n))
    ensures IsEmission(s, Emit(s, n), n) && Emission(Emit(s, n))
  {
    hide EmissionOK;
    PushEmission(s.nodes[n], s.h.emitted[n]);
  }

  lemma PopEmission(n: Node, emitted: seq<Entry>)
    requires EmissionOK(n, emitted) && n.commitCh != []
    ensures EmissionOK(n.(commitCh := n.commitCh[1..]), emitted)
  {}

  lemma PopIsEmission(s: State, n: Id)
    requires Emission(s) && Config(s) && Enabled(s, Consume(n))
    ensures IsEmission(s, Step(s, Consume(n)), n) && Emission(Step(s, Consume(n)))
  {
    hide EmissionOK;
    PopEmission(s.nodes[n], s.h.emitted[n]);
  }

  lemma EmissionHolds(s: State, n: Id)
    requires Inv(s) && n in s.nodes
    ensures Emission(s) && Config(s) && s.nodes[n].lastApplied <= s.nodes[n].commitIndex
  {
    hide Config, LeaderLogs, NodeLogs, Leadership, Ledger, NodesCarry, LeadersCarry, Appends, AppendReplies, Books,
      Emission, GrantsOK, OneVoteBeforeWinner, QuorumsOK, SelfVotes, Ballots, VoteRequests, CandidatesCarry, Backed;
  }

  lemma ApplyKeepsInv(s: State, n: Id)
    requires Inv(s) && Enabled(s, Apply(n))
    ensures Inv(Step(s, Apply(n))) && Evolves(s, Step(s, Apply(n)))
  {
    hide Inv, Evolves, Emission, Config, IsEmission;
    EmissionHolds(s, n);
    PushIsEmission(s, n);
    EmissionKeepsInv(s, Emit(s, n), n);
  }

  lemma ConsumeKeepsInv(s: State, n: Id)
    requires Inv(s) && Enabled(s, Consume(n))
    ensures Inv(Step(s, Consume(n))) && Evolves(s, Step(s, Consume(n)))
  {
    hide Inv, Evolves, Emission, Config, IsEmission;
    EmissionHolds(s, n);
    PopIsEmission(s, n);
    EmissionKeepsInv(s, Step(s, Consume(n)), n);
  }
}
