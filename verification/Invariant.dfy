/** What holds in every reachable state of the cluster, as one named predicate per concern. */
module Invariant {
  import opened Types
  import opened Logs
  import opened NodeState
  import opened Cluster

  // ----- configuration -----

  ghost predicate Config(s: State) {
    && NOBODY !in s.nodes && s.elections.Keys == s.nodes.Keys == s.h.emitted.Keys
    && forall n :: n in s.nodes ==>
         && s.nodes[n].id == n && Distinct(s.nodes[n].peers)
         && forall p :: p in s.nodes[n].peers <==> p in s.nodes && p != n
  }

  /** More than half of the cluster. */
  ghost predicate IsQuorum(s: State, q: set<Id>) {
    q <= s.nodes.Keys && 2 * |q| > |s.nodes.Keys|
  }

  // ----- logs -----

  /** Every entry, with all that precedes it, is taken from the log of the leader of its term. */
  ghost predicate Grounded(s: State, log: Entries) {
    && log[0] == SENTINEL
    && forall i: nat {:trigger log[i]} :: 1 <= i < |log| ==>
         log[i].index == i && log[i].term in s.h.leaderLog && Agree(log, s.h.leaderLog[log[i].term], i)
  }

  ghost predicate TermsUpTo(log: Entries, term: nat) {
    forall i {:trigger log[i]} :: 0 <= i < |log| ==> log[i].term <= term
  }

  ghost predicate LeaderLogs(s: State) {
    && s.h.leaderLog.Keys == s.h.leaderOf.Keys == s.h.quorum.Keys
    && forall t :: t in s.h.leaderLog ==> Grounded(s, s.h.leaderLog[t]) && TermsUpTo(s.h.leaderLog[t], t)
  }

  ghost predicate NodeLogs(s: State) {
    forall n :: n in s.nodes ==> Grounded(s, s.nodes[n].log) && TermsUpTo(s.nodes[n].log, s.nodes[n].currentTerm)
  }

  // ----- elections -----

  /** A leader's log is the one recorded for its term; whoever won a term leads it until it leaves it. */
  ghost predicate Leadership(s: State) {
    && (forall n :: n in s.nodes && s.nodes[n].role == Leader ==>
          && s.nodes[n].currentTerm in s.h.leaderLog && s.nodes[n].currentTerm in s.h.leaderOf
          && s.h.leaderOf[s.nodes[n].currentTerm] == n
          && s.h.leaderLog[s.nodes[n].currentTerm] == s.nodes[n].log
          && Acked(s, n, s.nodes[n].currentTerm) == LastIndex(s.nodes[n].log))
    && (forall t :: t in s.h.leaderOf ==>
          && s.h.leaderOf[t] in s.nodes && t <= s.nodes[s.h.leaderOf[t]].currentTerm
          && (s.nodes[s.h.leaderOf[t]].currentTerm == t ==> s.nodes[s.h.leaderOf[t]].role == Leader))
  }

  ghost predicate GrantOK(s: State, g: Grant) {
    && g.voter in s.nodes && g.candidate in s.nodes
    && g.term <= s.nodes[g.voter].currentTerm && g.term <= s.nodes[g.candidate].currentTerm
    && (g.term !in s.h.leaderOf && s.nodes[g.voter].currentTerm == g.term ==>
          s.nodes[g.voter].votedFor == g.candidate)
    && (g.term in s.h.leaderOf && g.term in s.h.quorum && g.voter in s.h.quorum[g.term] ==>
          g.candidate == s.h.leaderOf[g.term])
  }

  /** Until somebody wins the term, everyone's votes in it go to one candidate each. */
  ghost predicate OneVoteBeforeWinner(s: State) {
    forall g, k :: g in s.h.grants && k in s.h.grants && g.term !in s.h.leaderOf ==>
      g.voter == k.voter && g.term == k.term ==> g.candidate == k.candidate
  }

  /** A winner's quorum voted for it and, while still in the term, has not forgotten it. */
  ghost predicate QuorumOK(s: State, t: nat)
    requires t in s.h.leaderOf && t in s.h.quorum
  {
    && IsQuorum(s, s.h.quorum[t])
    && forall v :: v in s.h.quorum[t] ==>
         && v in s.nodes && Grant(v, t, s.h.leaderOf[t]) in s.h.grants && t <= s.nodes[v].currentTerm
         && (s.nodes[v].currentTerm == t ==> s.nodes[v].votedFor == s.h.leaderOf[t])
  }

  ghost predicate GrantsOK(s: State) {
    forall g :: g in s.h.grants ==> GrantOK(s, g)
  }

  ghost predicate QuorumsOK(s: State) {
    forall t :: t in s.h.leaderOf ==> t in s.h.quorum && QuorumOK(s, t)
  }

  /** A candidate's vote is its own. */
  ghost predicate SelfVotes(s: State) {
    forall n :: n in s.nodes && s.nodes[n].role == Candidate ==>
      s.nodes[n].votedFor == n && Grant(n, s.nodes[n].currentTerm, n) in s.h.grants
  }

  ghost predicate Voting(s: State) {
    GrantsOK(s) && OneVoteBeforeWinner(s) && QuorumsOK(s) && SelfVotes(s)
  }

  ghost predicate ElectionOK(s: State, c: Id, e: Election) {
    && c in s.nodes && e.req.candidateId == c && e.req.term <= s.nodes[c].currentTerm
    && e.votes == |e.voters| && e.voters <= s.nodes.Keys && c in e.voters
    && e.voters !! e.waiting && e.voters !! e.checked && e.checked !! e.waiting && e.checked <= s.nodes.Keys
    && forall v :: v in e.voters || v in e.checked ==> Grant(v, e.req.term, c) in s.h.grants
  }

  /** Votes are counted once per voter and only when granted. */
  ghost predicate Ballots(s: State) {
    && (forall c :: c in s.elections && s.elections[c].Some? ==> ElectionOK(s, c, s.elections[c].value))
    && (forall r :: r in s.voteReplies ==>
          r.voter in s.nodes && (r.resp.voteGranted ==> Grant(r.voter, r.req.term, r.req.candidateId) in s.h.grants))
  }

  /** While its sender is still a candidate in the term, a vote request describes the sender's log. */
  ghost predicate VoteRequestOK(s: State, r: VoteRequest) {
    && r.candidateId in s.nodes && r.term <= s.nodes[r.candidateId].currentTerm
    && (s.nodes[r.candidateId].role == Candidate && s.nodes[r.candidateId].currentTerm == r.term ==>
          r == RequestFor(s.nodes[r.candidateId]))
  }

  ghost predicate VoteRequests(s: State) {
    forall r :: r in s.voteRequests ==> VoteRequestOK(s, r)
  }

  // ----- what may be committed -----

  /** Entry k of the leader of term t was made in that term. */
  ghost predicate Own(s: State, t: nat, k: nat) {
    t in s.h.leaderLog && 1 <= k < |s.h.leaderLog[t]| && s.h.leaderLog[t][k].term == t
  }

  /** A quorum has left term t without having confirmed entry k, so nobody can commit it in t any more. */
  ghost predicate Closed(s: State, t: nat, k: nat) {
    exists q :: ClosedBy(s, t, k, q)
  }

  ghost predicate ClosedBy(s: State, t: nat, k: nat, q: set<Id>) {
    IsQuorum(s, q) && forall n :: n in q ==> n in s.nodes && t < s.nodes[n].currentTerm && Acked(s, n, t) < k
  }

  /** A quorum has confirmed entry k of the leader of term t, an entry of that term. */
  ghost predicate Chosen(s: State, t: nat, k: nat) {
    Own(s, t, k) && exists q :: ChosenBy(s, t, k, q)
  }

  ghost predicate ChosenBy(s: State, t: nat, k: nat, q: set<Id>) {
    IsQuorum(s, q) && forall n :: n in q ==> n in s.nodes && k <= Acked(s, n, t)
  }

  /** The log holds entry k of the leader of term t and all before it, or that entry is out of the race. */
  ghost predicate Kept(s: State, t: nat, k: nat, log: Entries)
    requires t in s.h.leaderLog
  {
    Agree(s.h.leaderLog[t], log, k) || Closed(s, t, k)
  }

  /** The log keeps everything the node confirmed in the terms before `term`. */
  ghost predicate Carries(s: State, n: Id, term: nat, log: Entries) {
    forall t: nat, k: nat {:trigger Own(s, t, k)} ::
      t < term && Own(s, t, k) && k <= Acked(s, n, t) ==> Kept(s, t, k, log)
  }

  /** Nodes confirm only what the leader of the term has, and hold it as long as they stay in the term. */
  ghost predicate Ledger(s: State) {
    && (forall n, t: nat {:trigger Acked(s, n, t)} :: n in s.nodes && Acked(s, n, t) > 0 ==>
          && t <= s.nodes[n].currentTerm && t in s.h.leaderLog && Acked(s, n, t) < |s.h.leaderLog[t]|)
    && (forall n :: n in s.nodes && s.nodes[n].currentTerm in s.h.leaderLog ==>
          Agree(s.h.leaderLog[s.nodes[n].currentTerm], s.nodes[n].log, Acked(s, n, s.nodes[n].currentTerm)))
  }

  ghost predicate NodesCarry(s: State) {
    forall n :: n in s.nodes ==> Carries(s, n, s.nodes[n].currentTerm, s.nodes[n].log)
  }

  /** A candidate has all that its voters confirmed earlier. */
  ghost predicate CandidateCarries(s: State, g: Grant)
    requires g.candidate in s.nodes
  {
    s.nodes[g.candidate].role == Candidate && s.nodes[g.candidate].currentTerm == g.term ==>
      Carries(s, g.voter, g.term, s.nodes[g.candidate].log)
  }

  ghost predicate CandidatesCarry(s: State) {
    forall g :: g in s.h.grants ==> g.candidate in s.nodes && CandidateCarries(s, g)
  }

  /** Later leaders have every entry that could still be committed. */
  ghost predicate LeadersCarry(s: State) {
    forall t: nat, k: nat, u: nat {:trigger Own(s, t, k), s.h.leaderLog[u]} ::
      t < u && u in s.h.leaderLog && Own(s, t, k) ==> Kept(s, t, k, s.h.leaderLog[u])
  }

  // ----- commit indices -----

  /** The first c entries are part of what some leader up to `term` committed. */
  ghost predicate Backed(s: State, log: Entries, c: nat, term: nat) {
    c < |log| && (c == 0 || exists t: nat, k: nat :: BackedBy(s, log, c, term, t, k))
  }

  ghost predicate BackedBy(s: State, log: Entries, c: nat, term: nat, t: nat, k: nat) {
    t <= term && c <= k && Chosen(s, t, k) && t in s.h.leaderLog && Agree(s.h.leaderLog[t], log, c)
  }

  ghost predicate Commits(s: State) {
    forall n :: n in s.nodes ==>
      && Backed(s, s.nodes[n].log, s.nodes[n].commitIndex, s.nodes[n].currentTerm)
      && s.nodes[n].lastApplied <= s.nodes[n].commitIndex
  }

  // ----- replication messages and the leader's books -----

  /** The leader log position of the last entry a request covers. */
  function EndOf(req: AppendRequest): nat { req.prevLogIndex + |req.entries| }

  /** A request is a slice of its leader's log, together with a commit index inside that slice. */
  ghost predicate AppendOK(s: State, m: AppendMsg) {
    && m.to in s.nodes && m.req.term in s.h.leaderLog && m.req.term in s.h.leaderOf
    && m.req.leaderId == s.h.leaderOf[m.req.term] != m.to
    && EndOf(m.req) < |s.h.leaderLog[m.req.term]|
    && m.req.prevLogTerm == s.h.leaderLog[m.req.term][m.req.prevLogIndex].term
    && m.req.entries == s.h.leaderLog[m.req.term][m.req.prevLogIndex + 1..EndOf(m.req) + 1]
    && m.req.leaderCommit <= EndOf(m.req)
    && m.req.leaderId in s.nodes && m.req.leaderCommit <= s.nodes[m.req.leaderId].commitIndex
    && Backed(s, s.h.leaderLog[m.req.term], m.req.leaderCommit, m.req.term)
  }

  ghost predicate Appends(s: State) {
    forall m :: m in s.appends ==> AppendOK(s, m)
  }

  /** A success confirms the whole slice; a rejection points back, or shows a term that deposes the sender. */
  ghost predicate ReplyOK(s: State, r: AppendReply) {
    && AppendOK(s, r.msg)
    && (r.resp.success ==> EndOf(r.msg.req) <= Acked(s, r.msg.to, r.msg.req.term))
    && (!r.resp.success && r.resp.conflictIndex == 0 ==> r.resp.term > r.msg.req.term)
    && (!r.resp.success ==> r.resp.conflictIndex <= r.msg.req.prevLogIndex)
  }

  ghost predicate AppendReplies(s: State) {
    forall r :: r in s.appendReplies ==> ReplyOK(s, r)
  }

  ghost predicate BookOK(s: State, n: Node) {
    forall p :: p in n.peers ==>
      && p in n.nextIndex && p in n.matchIndex
      && 1 <= n.nextIndex[p] <= |n.log| && n.matchIndex[p] <= Acked(s, p, n.currentTerm)
  }

  /** For a leader, matchIndex never exceeds what the peer has confirmed in the leader's term. */
  ghost predicate Books(s: State) {
    forall n :: n in s.nodes && s.nodes[n].role == Leader ==> BookOK(s, s.nodes[n])
  }

  // ----- the channel of committed entries -----

  /** What a node emitted is its log up to lastApplied; the channel holds the last part of it. */
  ghost predicate EmissionOK(n: Node, emitted: seq<Entry>) {
    && n.lastApplied < |n.log| && emitted == n.log[1..n.lastApplied + 1]
    && |n.commitCh| <= COMMIT_CHANNEL_CAPACITY && |n.commitCh| <= |emitted|
    && n.commitCh == emitted[|emitted| - |n.commitCh|..]
  }

  ghost predicate Emission(s: State) {
    forall n :: n in s.nodes && n in s.h.emitted ==> EmissionOK(s.nodes[n], s.h.emitted[n])
  }

  /** All that does not speak about votes. */
  ghost predicate DataInv(s: State) {
    && Config(s) && LeaderLogs(s) && NodeLogs(s) && Leadership(s)
    && Ledger(s) && NodesCarry(s) && LeadersCarry(s)
    && Commits(s) && Appends(s) && AppendReplies(s) && Books(s) && Emission(s)
  }

  ghost predicate VoteInv(s: State) {
    Voting(s) && Ballots(s) && VoteRequests(s) && CandidatesCarry(s)
  }

  ghost predicate Inv(s: State) {
    DataInv(s) && VoteInv(s)
  }
}
