/** The steps that leave terms, roles and votes alone: strokes, replication, commit and application. */
module Replication {
  import opened Types
  import opened Logs
  import opened NodeState
  import opened Cluster
  import opened Invariant
  import opened Progress
  import opened Quiet

  // ----- votes and terms stay as they are -----

  ghost predicate SameStanding(n: Node, m: Node) {
    && m.id == n.id && m.peers == n.peers
    && m.currentTerm == n.currentTerm && m.role == n.role && m.votedFor == n.votedFor
    && (n.role == Candidate ==> m.log == n.log)
  }

  ghost predicate SameStandings(s: State, t: State) {
    && t.nodes.Keys == s.nodes.Keys && (forall n :: n in s.nodes ==> SameStanding(s.nodes[n], t.nodes[n]))
    && t.elections == s.elections && t.voteRequests == s.voteRequests && t.voteReplies == s.voteReplies
    && t.h.grants == s.h.grants && t.h.leaderOf == s.h.leaderOf && t.h.quorum == s.h.quorum
    && t.h.emitted.Keys == s.h.emitted.Keys
  }

  lemma StandingVotes(s: State, t: State)
    requires SameStandings(s, t) && Config(s) && Voting(s)
    ensures Config(t) && Voting(t)
  {
    forall g | g in t.h.grants ensures GrantOK(t, g) { assert GrantOK(s, g); }
    forall u | u in t.h.leaderOf ensures QuorumOK(t, u) { assert QuorumOK(s, u); }
  }

  lemma StandingBallots(s: State, t: State)
    requires SameStandings(s, t) && Ballots(s) && VoteRequests(s)
    ensures Ballots(t) && VoteRequests(t)
  {
    forall d | d in t.elections && t.elections[d].Some? ensures ElectionOK(t, d, t.elections[d].value) {
      assert ElectionOK(s, d, s.elections[d].value);
    }
    forall r | r in t.voteRequests ensures VoteRequestOK(t, r) { assert VoteRequestOK(s, r); }
  }

  lemma StandingCandidates(s: State, t: State)
    requires SameStandings(s, t) && Evolves(s, t) && Ledger(s) && GrantsOK(s) && CandidatesCarry(s)
    ensures CandidatesCarry(t)
  {
    hide Settled;
    forall g | g in t.h.grants ensures g.candidate in t.nodes && CandidateCarries(t, g) {
      assert GrantOK(s, g) && CandidateCarries(s, g);
      if t.nodes[g.candidate].role == Candidate && t.nodes[g.candidate].currentTerm == g.term {
        CarriesStays(s, t, g.voter, g.term, s.nodes[g.candidate].log, t.nodes[g.candidate].log);
      }
    }
  }

  lemma StandingVoteInv(s: State, t: State)
    requires SameStandings(s, t) && Evolves(s, t) && Config(s) && Ledger(s) && VoteInv(s)
    ensures Config(t) && VoteInv(t)
  {
    hide SameStandings, Evolves, Config, Ledger, GrantsOK, OneVoteBeforeWinner, QuorumsOK, SelfVotes, Ballots,
      VoteRequests, CandidatesCarry;
    StandingVotes(s, t);
    StandingBallots(s, t);
    StandingCandidates(s, t);
  }

  // ----- confirmations, logs and leaders stay as they are -----

  /** Only commit indices, the applier, a leader's books and the messages may change. */
  ghost predicate SameCore(s: State, t: State) {
    && SameStandings(s, t) && Evolves(s, t)
    && (forall n :: n in s.nodes ==> t.nodes[n].log == s.nodes[n].log)
    && t.h.leaderLog == s.h.leaderLog && t.h.acked == s.h.acked
  }

  lemma CoreLogs(s: State, t: State)
    requires SameCore(s, t) && LeaderLogs(s) && NodeLogs(s)
    ensures LeaderLogs(t) && NodeLogs(t)
  {
    hide Evolves;
    QuietLeaderLogs(s, t);
    QuietNodeLogs(s, t);
  }

  lemma CoreLeadership(s: State, t: State)
    requires SameCore(s, t) && Leadership(s)
    ensures Leadership(t)
  {
    hide Evolves;
    forall n | n in t.nodes && t.nodes[n].role == Leader
      ensures Acked(t, n, t.nodes[n].currentTerm) == LastIndex(t.nodes[n].log)
    {
      assert Acked(t, n, t.nodes[n].currentTerm) == Acked(s, n, s.nodes[n].currentTerm);
    }
  }

  lemma CoreLedger(s: State, t: State)
    requires SameCore(s, t) && Ledger(s)
    ensures Ledger(t)
  {
    hide Evolves;
    assert forall n, u :: Acked(t, n, u) == Acked(s, n, u);
  }

  /** What remains to be shown for such a step: commit indices, messages, books and the channel. */
  lemma CoreKeepsInv(s: State, t: State)
    requires Inv(s) && SameCore(s, t) && Commits(t) && Appends(t) && AppendReplies(t) && Books(t) && Emission(t)
    ensures Inv(t)
  {
    hide SameCore, SameStandings, Evolves, Config, LeaderLogs, NodeLogs, Leadership, Ledger, NodesCarry, LeadersCarry,
      Commits, Appends, AppendReplies, Books, Emission, GrantsOK, OneVoteBeforeWinner, QuorumsOK, SelfVotes, Ballots,
      VoteRequests, CandidatesCarry;
    CoreParts(s, t);
    CoreLogs(s, t);
    CoreLeadership(s, t);
    CoreLedger(s, t);
    QuietNodesCarry(s, t);
    QuietLeadersCarry(s, t);
    StandingVoteInv(s, t);
  }

  lemma CoreParts(s: State, t: State)
    requires SameCore(s, t)
    ensures SameStandings(s, t) && Evolves(s, t) && t.h.leaderLog == s.h.leaderLog && t.h.acked == s.h.acked
    ensures t.nodes.Keys == s.nodes.Keys && forall n :: n in t.nodes ==> t.nodes[n].log == s.nodes[n].log
  {}

  // ----- a stroke -----

  /** The leader l puts one entry of its term at the end of its log. */
  ghost predicate IsDraw(s: State, t: State, l: Id) {
    && l in s.nodes && l in t.nodes && s.nodes[l].role == Leader
    && t.nodes == s.nodes[l := s.nodes[l].(log := t.nodes[l].log)]
    && |t.nodes[l].log| == |s.nodes[l].log| + 1 && Extends(s.nodes[l].log, t.nodes[l].log)
    && t.nodes[l].log[|s.nodes[l].log|].index == |s.nodes[l].log|
    && t.nodes[l].log[|s.nodes[l].log|].term == s.nodes[l].currentTerm
    && t == s.(nodes := t.nodes, h := s.h.(
         leaderLog := s.h.leaderLog[s.nodes[l].currentTerm := t.nodes[l].log],
         acked := s.h.acked[(l, s.nodes[l].currentTerm) := |s.nodes[l].log|]))
  }

  lemma DrawIsDraw(s: State, l: Id, stroke: Stroke)
    requires l in s.nodes && s.nodes[l].role == Leader
    ensures IsDraw(s, AcceptStroke(s, l, stroke), l)
  {}

  lemma DrawAcked(s: State, t: State, l: Id)
    requires IsDraw(s, t, l)
    ensures forall n, u: nat :: n != l || u != s.nodes[l].currentTerm ==> Acked(t, n, u) == Acked(s, n, u)
    ensures Acked(t, l, s.nodes[l].currentTerm) == |s.nodes[l].log|
  {}

  lemma DrawSettled(s: State, t: State, l: Id)
    requires IsDraw(s, t, l)
    ensures forall n :: n in s.nodes ==> Settled(s.nodes[n], t.nodes[n])
  {}

  lemma DrawGoesOn(s: State, t: State, l: Id)
    requires IsDraw(s, t, l) && Leadership(s)
    ensures forall u :: u in s.h.leaderLog ==> u in t.h.leaderLog && GoesOn(u, s.h.leaderLog[u], t.h.leaderLog[u])
  {}

  lemma DrawEvolves(s: State, t: State, l: Id)
    requires IsDraw(s, t, l) && Leadership(s)
    ensures Evolves(s, t) && SameStandings(s, t)
  {
    hide Settled, GoesOn;
    DrawSettled(s, t, l);
    DrawAcked(s, t, l);
    DrawGoesOn(s, t, l);
  }

  lemma DrawGrounded(s: State, t: State, l: Id)
    requires IsDraw(s, t, l) && Evolves(s, t) && NodeLogs(s)
    ensures Grounded(t, t.nodes[l].log) && TermsUpTo(t.nodes[l].log, t.nodes[l].currentTerm)
  {
    hide Evolves;
    var before, after := s.nodes[l].log, t.nodes[l].log;
    GroundedStays(s, t, before);
    forall i: nat | 1 <= i < |after|
      ensures after[i].index == i && after[i].term in t.h.leaderLog && Agree(after, t.h.leaderLog[after[i].term], i)
    {
      if i < |before| {
        assert before[i] == after[i];
        assert Agree(before, t.h.leaderLog[before[i].term], i);
      }
    }
  }

  lemma DrawLeaderLogs(s: State, t: State, l: Id)
    requires IsDraw(s, t, l) && Evolves(s, t) && LeaderLogs(s) && Leadership(s)
    requires Grounded(t, t.nodes[l].log) && TermsUpTo(t.nodes[l].log, t.nodes[l].currentTerm)
    ensures LeaderLogs(t)
  {
    hide Evolves, Grounded, TermsUpTo;
    forall u | u in t.h.leaderLog ensures Grounded(t, t.h.leaderLog[u]) && TermsUpTo(t.h.leaderLog[u], u) {
      if u != s.nodes[l].currentTerm { GroundedStays(s, t, s.h.leaderLog[u]); }
    }
  }

  lemma DrawNodeLogs(s: State, t: State, l: Id)
    requires IsDraw(s, t, l) && Evolves(s, t) && NodeLogs(s)
    requires Grounded(t, t.nodes[l].log) && TermsUpTo(t.nodes[l].log, t.nodes[l].currentTerm)
    ensures NodeLogs(t)
  {
    hide Evolves, Grounded, TermsUpTo;
    forall n | n in t.nodes ensures Grounded(t, t.nodes[n].log) {
      if n != l { GroundedStays(s, t, s.nodes[n].log); }
    }
  }

  lemma DrawLeadership(s: State, t: State, l: Id)
    requires IsDraw(s, t, l) && Leadership(s)
    ensures Leadership(t)
  {
    DrawAcked(s, t, l);
  }

  lemma DrawLedger(s: State, t: State, l: Id)
    requires IsDraw(s, t, l) && Leadership(s) && Ledger(s)
    ensures Ledger(t)
  {
    DrawAcked(s, t, l);
    var log := t.nodes[l].log;
    forall n | n in t.nodes && t.nodes[n].currentTerm in t.h.leaderLog
      ensures Agree(t.h.leaderLog[t.nodes[n].currentTerm], t.nodes[n].log, Acked(t, n, t.nodes[n].currentTerm))
    {
      if n == l {
        assert Agree(log, log, |log| - 1);
      } else {
        assert Agree(s.h.leaderLog[s.nodes[n].currentTerm], s.nodes[n].log, Acked(s, n, s.nodes[n].currentTerm));
      }
    }
  }

  /** A stroke accepted in a term that is already over elsewhere can never be committed in it. */
  lemma LateStrokeClosed(s: State, t: State, l: Id, w: nat)
    requires IsDraw(s, t, l) && Leadership(s) && Ledger(s)
    requires w in s.h.leaderOf && w in s.h.quorum && QuorumOK(s, w) && s.nodes[l].currentTerm < w
    ensures Closed(t, s.nodes[l].currentTerm, |s.nodes[l].log|)
  {
    DrawAcked(s, t, l);
    assert ClosedBy(t, s.nodes[l].currentTerm, |s.nodes[l].log|, s.h.quorum[w]);
  }

  /** The stroke is the only new entry a leader made; every leader log extends what it was. */
  lemma DrawOwn(s: State, t: State, l: Id, u: nat, k: nat)
    requires IsDraw(s, t, l) && Leadership(s) && Own(t, u, k)
    ensures Own(s, u, k) || (u == s.nodes[l].currentTerm && k == |s.nodes[l].log|)
  {}

  lemma DrawExtends(s: State, t: State, l: Id, w: nat)
    requires IsDraw(s, t, l) && Leadership(s) && w in t.h.leaderLog
    ensures w in s.h.leaderLog && Extends(s.h.leaderLog[w], t.h.leaderLog[w])
  {}

  lemma DrawLeadersCarry(s: State, t: State, l: Id)
    requires IsDraw(s, t, l) && Evolves(s, t)
    requires LeaderLogs(s) && Leadership(s) && Ledger(s) && QuorumsOK(s) && LeadersCarry(s)
    ensures LeadersCarry(t)
  {
    forall u: nat, k: nat, w: nat | u < w && w in t.h.leaderLog && Own(t, u, k) ensures Kept(t, u, k, t.h.leaderLog[w]) {
      hide Evolves, Closed, Ledger;
      DrawOwn(s, t, l, u, k);
      DrawExtends(s, t, l, w);
      if Own(s, u, k) {
        KeptStays(s, t, u, k, s.h.leaderLog[w], t.h.leaderLog[w]);
      } else {
        hide LeadersCarry;
        LateStrokeClosed(s, t, l, w);
      }
    }
  }

  lemma DrawNodesCarry(s: State, t: State, l: Id)
    requires IsDraw(s, t, l) && Evolves(s, t) && Ledger(s) && NodesCarry(s)
    ensures NodesCarry(t)
  {
    hide Evolves;
    forall n | n in t.nodes ensures Carries(t, n, t.nodes[n].currentTerm, t.nodes[n].log) {
      CarriesStays(s, t, n, s.nodes[n].currentTerm, s.nodes[n].log, t.nodes[n].log);
    }
  }

  lemma DrawCommits(s: State, t: State, l: Id)
    requires IsDraw(s, t, l) && Evolves(s, t) && Commits(s)
    ensures Commits(t)
  {
    hide Evolves;
    forall n | n in t.nodes
      ensures Backed(t, t.nodes[n].log, t.nodes[n].commitIndex, t.nodes[n].currentTerm)
    {
      var before, after := s.nodes[n], t.nodes[n];
      BackedStays(s, t, before.log, after.log, before.commitIndex, before.currentTerm, after.currentTerm);
    }
  }

  lemma DrawBooks(s: State, t: State, l: Id)
    requires IsDraw(s, t, l) && Evolves(s, t) && Config(s) && Books(s)
    ensures Books(t)
  {
    hide Evolves, Config, BookOK;
    PeersAreNodes(s);
    forall n | n in t.nodes && t.nodes[n].role == Leader ensures BookOK(t, t.nodes[n]) {
      BookStays(s, t, s.nodes[n], t.nodes[n]);
    }
  }

  lemma DrawEmission(s: State, t: State, l: Id)
    requires IsDraw(s, t, l) && Emission(s)
    ensures Emission(t)
  {}

  lemma DrawKeepsInv(s: State, l: Id, stroke: Stroke)
    requires Inv(s) && Enabled(s, Draw(l, stroke))
    ensures Inv(Step(s, Draw(l, stroke))) && Evolves(s, Step(s, Draw(l, stroke)))
  {
    hide SameStandings, Evolves, Config, LeaderLogs, NodeLogs, Leadership, Ledger, NodesCarry, LeadersCarry,
      Commits, Appends, AppendReplies, Books, Emission, GrantsOK, OneVoteBeforeWinner, QuorumsOK, SelfVotes, Ballots,
      VoteRequests, CandidatesCarry, IsDraw, Grounded, TermsUpTo;
    if s.nodes[l].role == Leader {
      var t := AcceptStroke(s, l, stroke);
      assert t.nodes.Keys == s.nodes.Keys;
      DrawIsDraw(s, l, stroke);
      DrawEvolves(s, t, l);
      DrawGrounded(s, t, l);
      DrawLeaderLogs(s, t, l);
      DrawNodeLogs(s, t, l);
      DrawLeadership(s, t, l);
      DrawLedger(s, t, l);
      DrawNodesCarry(s, t, l);
      DrawLeadersCarry(s, t, l);
      DrawCommits(s, t, l);
      DrawBooks(s, t, l);
      DrawEmission(s, t, l);
      QuietMessages(s, t);
      StandingVoteInv(s, t);
    } else {
      RefusedStroke(s, l, stroke);
      EvolvesRefl(s);
    }
  }

  /** Only a leader takes strokes. */
  lemma RefusedStroke(s: State, l: Id, stroke: Stroke)
    requires l in s.nodes && s.nodes[l].role != Leader
    ensures AcceptStroke(s, l, stroke) == s
  {
    assert s.nodes[l := s.nodes[l]] == s.nodes;
  }

  // ----- sending -----

  lemma SendIsSlice(s: State, l: Id, p: Id)
    requires l in s.nodes && p in s.nodes[l].peers && s.nodes[l].role == Leader
    requires Config(s) && Leadership(s) && BookOK(s, s.nodes[l])
    requires Backed(s, s.nodes[l].log, s.nodes[l].commitIndex, s.nodes[l].currentTerm)
    ensures AppendRequestFor(s.nodes[l], p).Some? && AppendOK(s, AppendMsg(AppendRequestFor(s.nodes[l], p).value, p))
  {
    hide Backed;
    var n := s.nodes[l];
    CommitInLog(s, l);
    var req := AppendRequestFor(n, p).value;
    assert n.log[n.nextIndex[p]..] == n.log[req.prevLogIndex + 1..EndOf(req) + 1];
  }

  lemma CommitInLog(s: State, l: Id)
    requires l in s.nodes && Backed(s, s.nodes[l].log, s.nodes[l].commitIndex, s.nodes[l].currentTerm)
    ensures s.nodes[l].commitIndex < |s.nodes[l].log|
  {}

  /** What depends only on nodes and history does not notice a message. */
  lemma SameHistoryKeeps(s: State, t: State)
    requires t.nodes == s.nodes && t.h == s.h && Evolves(s, t)
    requires Commits(s) && Books(s) && Emission(s)
    ensures Commits(t) && Books(t) && Emission(t)
  {
    hide Evolves;
    QuietCommits(s, t);
    forall n | n in t.nodes && t.nodes[n].role == Leader ensures BookOK(t, t.nodes[n]) {
      assert forall p :: Acked(t, p, t.nodes[n].currentTerm) == Acked(s, p, s.nodes[n].currentTerm);
    }
  }

  lemma SameHistoryCore(s: State, t: State)
    requires t == s.(appends := t.appends, appendReplies := t.appendReplies)
    ensures SameCore(s, t)
  {
    EvolvesRefl(s);
  }

  lemma MessagesStay(s: State, t: State)
    requires Evolves(s, t) && Appends(s) && AppendReplies(s)
    requires forall m :: m in t.appends ==> m in s.appends || AppendOK(t, m)
    requires forall r :: r in t.appendReplies ==> r in s.appendReplies || ReplyOK(t, r)
    ensures Appends(t) && AppendReplies(t)
  {
    hide Evolves, AppendOK, ReplyOK;
    forall m | m in t.appends ensures AppendOK(t, m) {
      if m in s.appends { AppendStays(s, t, m); }
    }
    forall r | r in t.appendReplies ensures ReplyOK(t, r) {
      if r in s.appendReplies { ReplyStays(s, t, r); }
    }
  }

  /** Whatever a leader sends is a slice of its log. */
  lemma SentIsSlice(s: State, l: Id, p: Id)
    requires Enabled(s, Send(l, p)) && Evolves(s, SendAppend(s, l, p))
    requires Config(s) && Leadership(s) && Commits(s) && Books(s)
    ensures forall m :: m in SendAppend(s, l, p).appends ==> m in s.appends || AppendOK(SendAppend(s, l, p), m)
  {
    hide Evolves, Backed, AppendOK, Config;
    if s.nodes[l].role == Leader {
      SendIsSlice(s, l, p);
      AppendStays(s, SendAppend(s, l, p), AppendMsg(AppendRequestFor(s.nodes[l], p).value, p));
    }
  }

  lemma SendKeepsInv(s: State, l: Id, p: Id)
    requires Inv(s) && Enabled(s, Send(l, p))
    ensures Inv(Step(s, Send(l, p))) && Evolves(s, Step(s, Send(l, p)))
  {
    hide SameCore, SameStandings, Evolves, Config, LeaderLogs, NodeLogs, Leadership, Ledger, NodesCarry, LeadersCarry,
      Commits, Appends, AppendReplies, Books, Emission, GrantsOK, OneVoteBeforeWinner, QuorumsOK, SelfVotes, Ballots,
      VoteRequests, CandidatesCarry, AppendOK;
    var t := SendAppend(s, l, p);
    SameHistoryCore(s, t);
    CoreParts(s, t);
    SentIsSlice(s, l, p);
    MessagesStay(s, t);
    SameHistoryKeeps(s, t);
    CoreKeepsInv(s, t);
  }
}
