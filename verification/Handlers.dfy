/**
 * What each handler answers and leaves behind, said of the message and the node's fields alone: both
 * directions of every decision, all fields that change, and that no other does.
 */
module Handlers {
  import opened Types
  import opened Logs
  import opened NodeState

  // ----- votes -----

  /** A candidate stands in the next term, for itself, with the end of its log. */
  lemma CandidateStands(n: Node)
    ensures var m := BecomeCandidate(n);
            && m == n.(role := Candidate, currentTerm := n.currentTerm + 1, votedFor := n.id, leaderId := NOBODY)
            && RequestFor(m) == VoteRequest(n.currentTerm + 1, n.id, |n.log| - 1, n.log[|n.log| - 1].term)
  {}

  /**
   * A vote is granted exactly when the request is not of an older term, the voter is free to vote for the
   * candidate, and the candidate's last entry is of a higher term, or of the same and not before the voter's.
   */
  lemma VoteGrantedIff(n: Node, req: VoteRequest)
    ensures var last := |n.log| - 1;
            HandleVoteRequest(n, req).1.voteGranted <==>
            && n.currentTerm <= req.term
            && (n.currentTerm == req.term ==> n.votedFor == NOBODY || n.votedFor == req.candidateId)
            && (n.log[last].term < req.lastLogTerm || (n.log[last].term == req.lastLogTerm && last <= req.lastLogIndex))
  {}

  /** A refusal carries the term the voter had when asked; a higher term is taken over, granted or not. */
  lemma VoteAnswer(n: Node, req: VoteRequest)
    ensures var (m, resp) := HandleVoteRequest(n, req);
            && resp.term == (if resp.voteGranted then req.term else n.currentTerm)
            && var vote := if resp.voteGranted then req.candidateId
                           else if n.currentTerm < req.term then NOBODY else n.votedFor;
               m == if n.currentTerm < req.term
                    then n.(role := Follower, currentTerm := req.term, leaderId := NOBODY, votedFor := vote)
                    else n.(votedFor := vote)
  {}

  /** Asked in a new term, one of any two nodes votes for the other; both do if their logs end alike. */
  lemma OneVotesForTheOther(a: Node, b: Node, term: nat)
    requires a.currentTerm < term && b.currentTerm < term
    ensures var byB := HandleVoteRequest(b, RequestFor(a).(term := term)).1.voteGranted;
            var byA := HandleVoteRequest(a, RequestFor(b).(term := term)).1.voteGranted;
            && (byA || byB)
            && (byA && byB <==> LastTerm(a.log) == LastTerm(b.log) && LastIndex(a.log) == LastIndex(b.log))
  {}

  /** An answer counts exactly when it grants the vote to a candidate that is still in the election's term. */
  lemma VoteCountsIff(n: Node, term: nat, resp: VoteResponse)
    ensures var (m, counts) := HandleVoteResponse(n, term, resp);
            && (counts <==> resp.voteGranted && n.role == Candidate && n.currentTerm == term && resp.term <= term)
            && m == if resp.term <= n.currentTerm then n
                    else n.(role := Follower, currentTerm := resp.term, votedFor := NOBODY, leaderId := NOBODY)
  {}

  /** The count needed to win is the least number that is more than half of the cluster. */
  lemma LeastMajority(n: Node)
    ensures 2 * Majority(n) > |n.peers| + 1 && 2 * (Majority(n) - 1) <= |n.peers| + 1
  {}

  /** Only the keys in the list are set. */
  lemma {:induction false} SetAllOnly(m: map<Id, nat>, peers: seq<Id>, index: nat, p: Id)
    requires p !in peers
    ensures p in SetAll(m, peers, index) <==> p in m
    ensures p in m ==> SetAll(m, peers, index)[p] == m[p]
  {
    if peers != [] { SetAllOnly(m, peers[..|peers| - 1], index, p); }
  }

  /** A map with the given index for every peer, and as before for everyone else. */
  ghost predicate IsReset(before: map<Id, nat>, after: map<Id, nat>, peers: seq<Id>, index: nat) {
    && (forall p :: p in peers ==> p in after && after[p] == index)
    && (forall p :: p !in peers ==> (p in after <==> p in before) && (p in before ==> after[p] == before[p]))
  }

  lemma SetAllResets(m: map<Id, nat>, peers: seq<Id>, index: nat)
    ensures IsReset(m, SetAll(m, peers, index), peers, index)
  {
    forall p | p in peers ensures p in SetAll(m, peers, index) && SetAll(m, peers, index)[p] == index {
      SetAllAt(m, peers, index, p);
    }
    forall p | p !in peers
      ensures p in SetAll(m, peers, index) <==> p in m
      ensures p in m ==> SetAll(m, peers, index)[p] == m[p]
    {
      SetAllOnly(m, peers, index, p);
    }
  }

  /**
   * An election makes a leader of a candidate still in its term with more than half of the votes of the
   * cluster, with the books reset to the end of its log; of anyone else it makes nothing.
   */
  lemma LeadsIff(n: Node, term: nat, votes: nat)
    ensures var m := FinishElection(n, term, votes);
            if n.role == Candidate && n.currentTerm == term && 2 * votes > |n.peers| + 1
            then && m == n.(role := Leader, leaderId := n.id, nextIndex := m.nextIndex, matchIndex := m.matchIndex)
                 && IsReset(n.nextIndex, m.nextIndex, n.peers, |n.log|)
                 && IsReset(n.matchIndex, m.matchIndex, n.peers, 0)
            else m == n
  {
    SetAllResets(n.nextIndex, n.peers, |n.log|);
    SetAllResets(n.matchIndex, n.peers, 0);
    hide IsReset, SetAll;
    LeastMajority(n);
  }

  // ----- strokes and requests -----

  /** A leader's log gains the stroke as one entry of its term; nobody else's log takes a stroke. */
  lemma StrokeTaken(n: Node, stroke: Stroke)
    ensures HandleStroke(n, stroke) ==
            if n.role == Leader then n.(log := n.log + [Entry(|n.log|, n.currentTerm, stroke)]) else n
  {}

  /** The request to a peer whose next index lies in the log or just past it: all there is from there on. */
  lemma RequestSays(n: Node, p: Id)
    requires p in n.nextIndex ==> 1 <= n.nextIndex[p] <= |n.log|
    ensures AppendRequestFor(n, p).Some? <==> n.role == Leader && p in n.nextIndex
    ensures AppendRequestFor(n, p).Some? ==>
              var req := AppendRequestFor(n, p).value;
              && req.term == n.currentTerm && req.leaderId == n.id && req.leaderCommit == n.commitIndex
              && req.prevLogIndex + 1 == n.nextIndex[p] && req.prevLogTerm == n.log[req.prevLogIndex].term
              && n.log == n.log[..req.prevLogIndex + 1] + req.entries
  {}

  // ----- requests arriving -----

  /** The log has the entry before the request's: there is none, or the log's own has the same term. */
  predicate HasPrevious(log: Entries, req: AppendRequest) {
    req.prevLogIndex == 0 || (req.prevLogIndex < |log| && log[req.prevLogIndex].term == req.prevLogTerm)
  }

  /**
   * A request of an older term is refused and changes nothing. Any other makes the node a follower of its
   * sender, with its vote only if it was a follower of the term before.
   */
  lemma LeaderAccepted(n: Node, req: AppendRequest)
    ensures var (m, answer) := HandleAppendEntries(n, req);
            if req.term < n.currentTerm then m == n && answer == Some(AppendResponse(n.currentTerm, false, 0))
            else m == n.(role := Follower, currentTerm := req.term, leaderId := req.leaderId, log := m.log,
                         commitIndex := m.commitIndex,
                         votedFor := if n.currentTerm == req.term && n.role == Follower then n.votedFor else NOBODY)
  {}

  /**
   * A request of no older a term succeeds exactly when the log has the previous entry (or it panics). A
   * refusal changes neither log nor commit index and points at the previous entry, or, if the log ends before
   * it, just past the end of the log; its term is the one the node had when asked.
   */
  lemma AppendAnsweredIff(n: Node, req: AppendRequest)
    requires n.currentTerm <= req.term
    ensures var (m, answer) := HandleAppendEntries(n, req);
            if !HasPrevious(n.log, req)
            then && answer == Some(AppendResponse(n.currentTerm, false,
                                                  if req.prevLogIndex < |n.log| then req.prevLogIndex else |n.log|))
                 && m.log == n.log && m.commitIndex == n.commitIndex
            else && (answer.Some? ==> answer.value == AppendResponse(req.term, true, 0))
                 && Spliced(m.log, answer.None?) == Splice(n.log, req.entries, n.commitIndex)
                 && m.commitIndex == if answer.None? || req.leaderCommit <= n.commitIndex then n.commitIndex
                                     else if req.leaderCommit <= |m.log| - 1 then req.leaderCommit
                                     else |m.log| - 1
  {}

  // ----- answers arriving -----

  /**
   * An answer of a higher term deposes; one to a request of a term the node does not lead changes nothing; a
   * refusal moves that peer's next index to the index it names, and without one a step back, but not below 1.
   */
  lemma RefusalTaken(n: Node, peer: Id, req: AppendRequest, resp: AppendResponse)
    ensures var m := HandleAppendResponse(n, peer, req, resp);
            && (n.currentTerm < resp.term ==>
                  m == n.(role := Follower, currentTerm := resp.term, votedFor := NOBODY, leaderId := NOBODY))
            && (resp.term <= n.currentTerm && (n.role != Leader || n.currentTerm != req.term) ==> m == n)
            && (resp.term <= n.currentTerm == req.term && n.role == Leader && !resp.success ==>
                  var next := if resp.conflictIndex > 0 then resp.conflictIndex
                              else if peer in n.nextIndex && n.nextIndex[peer] > 1 then n.nextIndex[peer] - 1
                              else 0;
                  m == if next > 0 then n.(nextIndex := n.nextIndex[peer := next]) else n)
  {}

  // ----- committed entries -----

  /** The last k elements, or all if there are not as many. */
  function LastOnes<T>(s: seq<T>, k: nat): (last: seq<T>)
    ensures |last| == if |s| < k then |s| else k
  {
    if |s| < k then s else s[|s| - k..]
  }

  lemma LastOnesTwice<T>(a: seq<T>, b: seq<T>, k: nat)
    ensures LastOnes(LastOnes(a, k) + b, k) == LastOnes(a + b, k)
  {}

  /** A push loses nothing but the oldest entry of a full channel. */
  lemma PushKeepsLast(channel: seq<Entry>, entry: Entry)
    requires |channel| <= 256
    ensures Pushed(channel, entry) == LastOnes(channel + [entry], 256)
  {}

  lemma PushThenRest(channel: seq<Entry>, rest: seq<Entry>)
    requires rest != [] && |channel| <= 256
    ensures |Pushed(channel, rest[0])| <= 256
    ensures LastOnes(Pushed(channel, rest[0]) + rest[1..], 256) == LastOnes(channel + rest, 256)
  {
    PushKeepsLast(channel, rest[0]);
    hide Pushed, LastOnes;
    LastOnesTwice(channel + [rest[0]], rest[1..], 256);
    assert channel + [rest[0]] + rest[1..] == channel + rest;
  }

  /** One round of the applier is a push, and the others follow. */
  lemma AppliesNext(n: Node)
    requires n.lastApplied < n.commitIndex < |n.log|
    ensures var m := n.(lastApplied := n.lastApplied + 1, commitCh := Pushed(n.commitCh, n.log[n.lastApplied + 1]));
            ApplyAll(n) == ApplyAll(m)
  {
    hide Pushed;
  }

  /**
   * The applier pushes every entry after lastApplied up to the commit index, in order; the channel ends up
   * with the last of what it held and what was pushed, as many as fit.
   */
  lemma {:induction false} AppliesAll(n: Node)
    requires n.lastApplied <= n.commitIndex < |n.log| && |n.commitCh| <= 256
    ensures ApplyAll(n) ==
            n.(lastApplied := n.commitIndex,
               commitCh := LastOnes(n.commitCh + n.log[n.lastApplied + 1..n.commitIndex + 1], 256))
    decreases n.commitIndex - n.lastApplied
  {
    var rest := n.log[n.lastApplied + 1..n.commitIndex + 1];
    if n.lastApplied < n.commitIndex {
      hide Pushed, LastOnes, ApplyAll;
      var m := n.(lastApplied := n.lastApplied + 1, commitCh := Pushed(n.commitCh, rest[0]));
      AppliesNext(n);
      PushThenRest(n.commitCh, rest);
      assert rest[1..] == m.log[m.lastApplied + 1..m.commitIndex + 1];
      AppliesAll(m);
    } else {
      assert n.commitCh + rest == n.commitCh;
    }
  }

  // ----- batches that leave a gap -----

  /** Entries that claim positions past the end are appended all the same, under the positions they get. */
  lemma {:induction false} SpliceRenumbers(log: Entries, batch: seq<Entry>, commitIndex: nat)
    requires forall i :: 0 <= i < |batch| ==> |log| + i <= batch[i].index
    ensures var r := Splice(log, batch, commitIndex);
            && !r.panicked && |r.log| == |log| + |batch| && r.log[..|log|] == log
            && forall i :: 0 <= i < |batch| ==> r.log[|log| + i] == batch[i].(index := |log| + i)
    decreases |batch|
  {
    if batch != [] {
      var more := Appended(log, batch[0]);
      SpliceRenumbers(more, batch[1..], commitIndex);
      var r := Splice(log, batch, commitIndex);
      assert r.log[..|log|] == r.log[..|more|][..|log|];
      forall i | 0 <= i < |batch| ensures r.log[|log| + i] == batch[i].(index := |log| + i) {
        if i == 0 { assert r.log[|log|] == r.log[..|more|][|log|]; }
        else { assert r.log[|more| + (i - 1)] == batch[1..][i - 1].(index := |more| + (i - 1)); }
      }
    }
  }
}
