/** The running node: its fields in place, one method per critical section of the program. */
module Replica {
  import opened Types
  import opened Logs
  import S = NodeState

  class Node {
    const id: Id
    const peers: seq<Id>
    const log: Log
    var currentTerm: nat
    var votedFor: Id
    var role: Role
    var commitIndex: nat
    var lastApplied: nat
    var leaderId: Id
    var nextIndex: map<Id, nat>
    var matchIndex: map<Id, nat>
    var commitCh: seq<Entry>

    /** Next indices start at 1: nothing is ever sent from the sentinel on. */
    predicate Valid() reads this, log {
      log.Valid() && forall peer :: peer in nextIndex ==> nextIndex[peer] > 0
    }

    /** The node as a value. */
    function View(): S.Node
      requires Valid()
      reads this, log
    {
      S.Node(id, peers, currentTerm, votedFor, log.entries, role, commitIndex, lastApplied, leaderId,
             nextIndex, matchIndex, commitCh)
    }

    constructor (id: Id, peers: seq<Id>)
      ensures Valid() && fresh(log)
      ensures View() == S.NewNode(id, peers)
    {
      this.id, this.peers := id, peers;
      log := new Log();
      currentTerm, votedFor, role := 0, NOBODY, Follower;
      commitIndex, lastApplied, leaderId := 0, 0, NOBODY;
      nextIndex, matchIndex, commitCh := map[], map[], [];
    }

    // ----- role changes -----

    method BecomeFollower(term: nat, leader: Id)
      requires Valid()
      modifies this
      ensures Valid() && View() == S.BecomeFollower(old(View()), term, leader)
    {
      role := Follower;
      currentTerm := term;
      votedFor := NOBODY;
      leaderId := leader;
    }

    method BecomeCandidate()
      requires Valid()
      modifies this
      ensures Valid() && View() == S.BecomeCandidate(old(View()))
    {
      role := Candidate;
      currentTerm := currentTerm + 1;
      votedFor := id;
      leaderId := NOBODY;
    }

    method BecomeLeader()
      requires Valid()
      modifies this
      ensures Valid() && View() == S.BecomeLeader(old(View()))
    {
      role := Leader;
      leaderId := id;
      var lastLogIndex := |log.entries| - 1;
      for i := 0 to |peers|
        invariant Valid()
        invariant View() == old(View()).(role := Leader, leaderId := id, nextIndex := nextIndex, matchIndex := matchIndex)
        invariant nextIndex == S.SetAll(old(nextIndex), peers[..i], lastLogIndex + 1)
        invariant matchIndex == S.SetAll(old(matchIndex), peers[..i], 0)
      {
        nextIndex := nextIndex[peers[i] := lastLogIndex + 1];
        matchIndex := matchIndex[peers[i] := 0];
        assert peers[..i + 1][..i] == peers[..i];
      }
      assert peers[..|peers|] == peers;
    }

    method StepDown(remoteTerm: nat) returns (stepped: bool)
      requires Valid()
      modifies this
      ensures Valid() && View() == S.StepDown(old(View()), remoteTerm)
      ensures stepped == (remoteTerm > old(currentTerm))
    {
      stepped := remoteTerm > currentTerm;
      if stepped {
        BecomeFollower(remoteTerm, NOBODY);
      }
    }

    // ----- elections -----

    /** First critical section of an election; the request goes to every peer. */
    method StartElection() returns (req: VoteRequest)
      requires Valid()
      modifies this
      ensures Valid() && View() == S.BecomeCandidate(old(View())) && req == S.RequestFor(View())
    {
      BecomeCandidate();
      req := VoteRequest(currentTerm, id, |log.entries| - 1, log.entries[|log.entries| - 1].term);
    }

    /**
     * One peer's answer, checked under the node's lock. Whoever gets `counts` adds one to the vote counter
     * of the election later, under the counter's own lock.
     */
    method CheckVote(electionTerm: nat, resp: VoteResponse) returns (counts: bool)
      requires Valid()
      modifies this
      ensures Valid() && (View(), counts) == S.HandleVoteResponse(old(View()), electionTerm, resp)
    {
      if resp.term > currentTerm {
        BecomeFollower(resp.term, NOBODY);
        return false;
      }
      if currentTerm != electionTerm || role != Candidate {
        return false;
      }
      counts := resp.voteGranted;
    }

    /** Last critical section of an election, once every peer has answered or failed. */
    method FinishElection(term: nat, votes: nat) returns (won: bool)
      requires Valid()
      modifies this
      ensures Valid() && View() == S.FinishElection(old(View()), term, votes)
      ensures won == S.Wins(old(View()), term, votes)
    {
      var total := |peers| + 1;
      var majority := total / 2 + 1;
      if role != Candidate || currentTerm != term {
        return false;
      }
      won := votes >= majority;
      if won {
        BecomeLeader();
      }
    }

    method HandleVoteRequest(req: VoteRequest) returns (resp: VoteResponse)
      requires Valid()
      modifies this
      ensures Valid() && (View(), resp) == S.HandleVoteRequest(old(View()), req)
    {
      resp := VoteResponse(currentTerm, false);
      var _ := StepDown(req.term);
      if req.term < currentTerm {
        return resp.(term := currentTerm);
      }
      var canVote := votedFor == NOBODY || votedFor == req.candidateId;
      var ourLastTerm := log.entries[|log.entries| - 1].term;
      var ourLastIndex := |log.entries| - 1;
      var logOK := req.lastLogTerm > ourLastTerm ||
                   (req.lastLogTerm == ourLastTerm && req.lastLogIndex >= ourLastIndex);
      if canVote && logOK {
        votedFor := req.candidateId;
        currentTerm := req.term;
        resp := VoteResponse(currentTerm, true);
      }
    }

    // ----- replication, leader side -----

    method HandleStroke(stroke: Stroke) returns (accepted: bool)
      requires Valid()
      modifies this, log
      ensures Valid() && View() == S.HandleStroke(old(View()), stroke) && accepted == (old(role) == Leader)
    {
      if role != Leader {
        return false;
      }
      var _ := log.Append(Entry(0, currentTerm, stroke));
      accepted := true;
    }

    method PrepareAppend(peer: Id) returns (req: Option<AppendRequest>)
      requires Valid()
      ensures req == S.AppendRequestFor(View(), peer)
    {
      if role != Leader || peer !in nextIndex {
        return None;
      }
      var nextIdx := nextIndex[peer];
      var prevLogIndex := nextIdx - 1;
      var prevLogTerm := TermAt(log.entries, prevLogIndex);
      var entries := log.GetFrom(nextIdx);
      req := Some(AppendRequest(currentTerm, id, prevLogIndex, prevLogTerm, entries, commitIndex));
    }

    method HandleAppendResponse(peer: Id, req: AppendRequest, resp: AppendResponse)
      requires Valid()
      modifies this
      ensures Valid() && View() == S.HandleAppendResponse(old(View()), peer, req, resp)
    {
      var stepped := StepDown(resp.term);
      if stepped {
        return;
      }
      if role != Leader || currentTerm != req.term {
        return;
      }
      if resp.success {
        if |req.entries| > 0 {
          var newMatchIndex := req.entries[|req.entries| - 1].index;
          nextIndex := nextIndex[peer := newMatchIndex + 1];
          matchIndex := matchIndex[peer := newMatchIndex];
        }
        AdvanceCommitIndex();
      } else if resp.conflictIndex > 0 {
        nextIndex := nextIndex[peer := resp.conflictIndex];
      } else if S.Lookup(nextIndex, peer) > 1 {
        nextIndex := nextIndex[peer := S.Lookup(nextIndex, peer) - 1];
      }
    }

    /** How many peers are known to hold the entry. */
    method CountPeers(index: nat) returns (count: nat)
      ensures count == S.CountHolding(peers, matchIndex, index)
    {
      count := 0;
      for i := 0 to |peers|
        invariant count + S.CountHolding(peers[i..], matchIndex, index) == S.CountHolding(peers, matchIndex, index)
      {
        assert peers[i..][1..] == peers[i + 1..];
        if S.Lookup(matchIndex, peers[i]) >= index {
          count := count + 1;
        }
      }
    }

    /** The upward scan ends at the highest committable index; each one on the way is committed in turn. */
    method AdvanceCommitIndex()
      requires Valid()
      modifies this`commitIndex
      ensures Valid() && View() == S.AdvanceCommitIndex(old(View()))
    {
      ghost var before := View();
      var idx := commitIndex + 1;
      while idx <= |log.entries| - 1
        invariant before.commitIndex + 1 <= idx
        invariant idx <= |log.entries| || idx == before.commitIndex + 1
        invariant commitIndex == S.HighestCommittable(before, idx - 1)
      {
        if log.entries[idx].term == currentTerm {
          var holding := CountPeers(idx);
          var replicaCount := 1 + holding;
          var majority := (|peers| + 1) / 2 + 1;
          if replicaCount >= majority {
            commitIndex := idx;
          }
        }
        idx := idx + 1;
      }
    }

    // ----- replication, follower side -----

    /** The sender of a request of the current term is its leader. */
    method AcceptLeader(req: AppendRequest)
      requires Valid() && req.term == currentTerm
      modifies this
      ensures Valid() && View() == S.AcceptLeader(old(View()), req)
    {
      leaderId := req.leaderId;
      if role == Candidate {
        BecomeFollower(req.term, req.leaderId);
      }
      if role != Follower {
        BecomeFollower(req.term, req.leaderId);
      }
      currentTerm := req.term;
    }

    /** Append, then advance the commit index. */
    method TakeEntries(req: AppendRequest) returns (panicked: bool)
      requires Valid()
      modifies this`commitIndex, log
      ensures Valid() && panicked == Splice(old(log.entries), req.entries, old(commitIndex)).panicked
      ensures View() == if panicked then old(View()).(log := Splice(old(log.entries), req.entries, old(commitIndex)).log)
                        else S.TakeEntries(old(View()), req)
    {
      panicked := false;
      if |req.entries| > 0 {
        panicked := log.AppendEntries(req.entries, commitIndex);
        if panicked {
          return;
        }
      }
      if req.leaderCommit > commitIndex {
        var lastNewIndex := |log.entries| - 1;
        if req.leaderCommit < lastNewIndex {
          commitIndex := req.leaderCommit;
        } else {
          commitIndex := lastNewIndex;
        }
      }
    }

    method HandleAppendEntries(req: AppendRequest) returns (resp: Option<AppendResponse>)
      requires Valid()
      modifies this, log
      ensures Valid() && (View(), resp) == S.HandleAppendEntries(old(View()), req)
    {
      var answer := AppendResponse(currentTerm, false, 0);
      var _ := StepDown(req.term);
      if req.term < currentTerm {
        return Some(answer.(term := currentTerm));
      }
      AcceptLeader(req);
      if req.prevLogIndex > 0 {
        var prevEntry := log.GetEntry(req.prevLogIndex);
        if prevEntry.None? {
          return Some(answer.(conflictIndex := |log.entries|));
        }
        if prevEntry.value.term != req.prevLogTerm {
          return Some(answer.(conflictIndex := req.prevLogIndex));
        }
      }
      var panicked := TakeEntries(req);
      if panicked {
        return None;
      }
      resp := Some(AppendResponse(currentTerm, true, 0));
    }

    // ----- committed entries -----

    /** One round of the applier: the next entry goes to the channel, which loses its oldest when it is full. */
    method ApplyEntry(i: nat) returns (found: bool)
      requires Valid() && i == lastApplied + 1 && i <= commitIndex
      modifies this`lastApplied, this`commitCh
      ensures Valid() && View() == S.ApplyNext(old(View())) && found == S.CanApply(old(View()))
    {
      var entry := log.GetEntry(i);
      if entry.None? {
        return false;
      }
      if |commitCh| >= S.COMMIT_CHANNEL_CAPACITY {
        commitCh := commitCh[1..];
      }
      commitCh := commitCh + [entry.value];
      lastApplied := i;
      found := true;
    }

    method ApplyCommitted()
      requires Valid()
      modifies this`lastApplied, this`commitCh
      ensures Valid() && View() == S.ApplyAll(old(View()))
    {
      var limit := commitIndex;
      var i := lastApplied + 1;
      while i <= limit
        invariant i == lastApplied + 1 && limit == commitIndex
        invariant S.ApplyAll(View()) == S.ApplyAll(old(View()))
        decreases limit - i
      {
        var found := ApplyEntry(i);
        if !found {
          break;
        }
        i := i + 1;
      }
    }

    /** The committed entries of a copy of the log taken some time after `limit` was read. */
    method FilterCommitted(limit: nat, entries: seq<Entry>) returns (result: seq<Entry>)
      ensures result == S.UpTo(entries, limit)
    {
      result := [];
      for i := 0 to |entries|
        invariant result == S.UpTo(entries[..i], limit)
      {
        assert entries[..i + 1][..i] == entries[..i];
        if entries[i].index <= limit {
          result := result + [entries[i]];
        }
      }
      assert entries[..|entries|] == entries;
    }

    method GetSyncLog(fromIndex: nat) returns (result: seq<Entry>)
      requires Valid()
      ensures result == S.SyncLog(commitIndex, log.entries, fromIndex)
    {
      var limit := commitIndex;
      var entries := log.GetFrom(fromIndex);
      result := FilterCommitted(limit, entries);
    }
  }
}
