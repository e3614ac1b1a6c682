/**
 * One replica as a value: the fields of a node and what each of its handlers makes of them.
 * The class in Replica.dfy stores these fields and updates them in place.
 */
module NodeState {
  import opened Types
  import opened Logs

  /** Capacity of the channel of committed entries. */
  const COMMIT_CHANNEL_CAPACITY: nat := 256

  datatype Node = Node(
    id: Id, peers: seq<Id>,
    currentTerm: nat, votedFor: Id, log: Entries,
    role: Role, commitIndex: nat, lastApplied: nat, leaderId: Id,
    nextIndex: map<Id, nat>, matchIndex: map<Id, nat>,
    commitCh: seq<Entry>)

  function NewNode(id: Id, peers: seq<Id>): Node {
    Node(id, peers, 0, NOBODY, [SENTINEL], Follower, 0, 0, NOBODY, map[], map[], [])
  }

  /** More than half of the node and its peers. */
  function Majority(n: Node): nat { (|n.peers| + 1) / 2 + 1 }

  // ----- role changes -----

  /** The vote is cleared whatever the term. */
  function BecomeFollower(n: Node, term: nat, leaderId: Id): Node {
    n.(role := Follower, currentTerm := term, votedFor := NOBODY, leaderId := leaderId)
  }

  function BecomeCandidate(n: Node): Node {
    n.(role := Candidate, currentTerm := n.currentTerm + 1, votedFor := n.id, leaderId := NOBODY)
  }

  /** The map with every peer set to the same index. */
  function SetAll(m: map<Id, nat>, peers: seq<Id>, index: nat): map<Id, nat> {
    if peers == [] then m else SetAll(m, peers[..|peers| - 1], index)[peers[|peers| - 1] := index]
  }

  lemma {:induction false} SetAllAt(m: map<Id, nat>, peers: seq<Id>, index: nat, p: Id)
    requires p in peers
    ensures p in SetAll(m, peers, index) && SetAll(m, peers, index)[p] == index
  {
    if p != peers[|peers| - 1] {
      SetAllAt(m, peers[..|peers| - 1], index, p);
    }
  }

  function BecomeLeader(n: Node): Node {
    n.(role := Leader, leaderId := n.id,
       nextIndex := SetAll(n.nextIndex, n.peers, LastIndex(n.log) + 1),
       matchIndex := SetAll(n.matchIndex, n.peers, 0))
  }

  function StepDown(n: Node, remoteTerm: nat): Node {
    if remoteTerm > n.currentTerm then BecomeFollower(n, remoteTerm, NOBODY) else n
  }

  // ----- elections -----

  function RequestFor(n: Node): VoteRequest {
    VoteRequest(n.currentTerm, n.id, LastIndex(n.log), LastTerm(n.log))
  }

  /** The candidate's last entry has a higher term, or the same term and no lower an index. */
  predicate UpToDate(req: VoteRequest, log: Entries) {
    req.lastLogTerm > LastTerm(log) || (req.lastLogTerm == LastTerm(log) && req.lastLogIndex >= LastIndex(log))
  }

  predicate CanGrant(n: Node, req: VoteRequest) {
    (n.votedFor == NOBODY || n.votedFor == req.candidateId) && UpToDate(req, n.log)
  }

  /** A refusal for lack of a free vote or an older log carries the term from before any step-down. */
  function HandleVoteRequest(n: Node, req: VoteRequest): (Node, VoteResponse) {
    var m := StepDown(n, req.term);
    if req.term < m.currentTerm then (m, VoteResponse(m.currentTerm, false))
    else if CanGrant(m, req) then
      (m.(votedFor := req.candidateId, currentTerm := req.term), VoteResponse(req.term, true))
    else (m, VoteResponse(n.currentTerm, false))
  }

  /** A peer's answer to the request of election `term`; the second component says whether it counts as a vote. */
  function HandleVoteResponse(n: Node, term: nat, resp: VoteResponse): (Node, bool) {
    if resp.term > n.currentTerm then (BecomeFollower(n, resp.term, NOBODY), false)
    else if n.currentTerm != term || n.role != Candidate then (n, false)
    else (n, resp.voteGranted)
  }

  predicate Wins(n: Node, term: nat, votes: nat) {
    n.role == Candidate && n.currentTerm == term && votes >= Majority(n)
  }

  function FinishElection(n: Node, term: nat, votes: nat): Node {
    if Wins(n, term, votes) then BecomeLeader(n) else n
  }

  // ----- replication, leader side -----

  function HandleStroke(n: Node, stroke: Stroke): Node {
    if n.role != Leader then n else n.(log := Appended(n.log, Entry(0, n.currentTerm, stroke)))
  }

  /** The request for one peer: everything from its next index on, and nothing when not leading. */
  function AppendRequestFor(n: Node, peer: Id): Option<AppendRequest> {
    if n.role != Leader || peer !in n.nextIndex then None
    else
      var prev := if n.nextIndex[peer] > 0 then n.nextIndex[peer] - 1 else 0;
      Some(AppendRequest(n.currentTerm, n.id, prev, TermAt(n.log, prev), From(n.log, n.nextIndex[peer]), n.commitIndex))
  }

  /** A missing key reads as 0. */
  function Lookup(m: map<Id, nat>, key: Id): nat {
    if key in m then m[key] else 0
  }

  function CountHolding(peers: seq<Id>, matchIndex: map<Id, nat>, index: nat): (count: nat)
    ensures count <= |peers|
  {
    if peers == [] then 0
    else (if Lookup(matchIndex, peers[0]) >= index then 1 else 0) + CountHolding(peers[1..], matchIndex, index)
  }

  /** The node itself and the peers known to hold the entry. */
  function Replicas(n: Node, index: nat): nat { 1 + CountHolding(n.peers, n.matchIndex, index) }

  predicate Committable(n: Node, index: nat) {
    index < |n.log| && n.log[index].term == n.currentTerm && Replicas(n, index) >= Majority(n)
  }

  /** The highest committable index from commitIndex + 1 to hi, or commitIndex if there is none. */
  function HighestCommittable(n: Node, hi: nat): (index: nat)
    ensures n.commitIndex <= index && (index == n.commitIndex || (Committable(n, index) && index <= hi))
    ensures forall i: nat {:trigger Committable(n, i)} :: index < i <= hi ==> !Committable(n, i)
  {
    if hi <= n.commitIndex then n.commitIndex
    else if Committable(n, hi) then hi
    else HighestCommittable(n, hi - 1)
  }

  function AdvanceCommitIndex(n: Node): Node {
    n.(commitIndex := HighestCommittable(n, LastIndex(n.log)))
  }

  /** Index of the last entry of a non-empty batch. */
  function LastOf(entries: seq<Entry>): nat
    requires entries != []
  {
    entries[|entries| - 1].index
  }

  /** The books after a success, before the commit index moves. */
  function Booked(n: Node, peer: Id, req: AppendRequest): Node {
    if req.entries == [] then n
    else n.(nextIndex := n.nextIndex[peer := LastOf(req.entries) + 1],
            matchIndex := n.matchIndex[peer := LastOf(req.entries)])
  }

  /** A peer's answer to one request, handled where the request is still known. */
  function HandleAppendResponse(n: Node, peer: Id, req: AppendRequest, resp: AppendResponse): Node {
    if resp.term > n.currentTerm then BecomeFollower(n, resp.term, NOBODY)
    else if n.role != Leader || n.currentTerm != req.term then n
    else if resp.success then
      AdvanceCommitIndex(Booked(n, peer, req))
    else if resp.conflictIndex > 0 then n.(nextIndex := n.nextIndex[peer := resp.conflictIndex])
    else BackUp(n, peer)
  }

  /** The fallback for a rejection without a conflict index. */
  function BackUp(n: Node, peer: Id): Node {
    if Lookup(n.nextIndex, peer) > 1 then n.(nextIndex := n.nextIndex[peer := Lookup(n.nextIndex, peer) - 1]) else n
  }

  // ----- replication, follower side -----

  /** A request of the current term makes any node a follower; only a node that was none loses its vote. */
  function AcceptLeader(n: Node, req: AppendRequest): Node {
    if n.role == Follower then n.(leaderId := req.leaderId) else BecomeFollower(n, req.term, req.leaderId)
  }

  predicate PrevMatches(log: Entries, req: AppendRequest) {
    req.prevLogIndex > 0 ==> req.prevLogIndex < |log| && log[req.prevLogIndex].term == req.prevLogTerm
  }

  /** Where a log that fails the check tells the leader to continue. */
  function ConflictIndex(log: Entries, req: AppendRequest): nat {
    if req.prevLogIndex >= |log| then LastIndex(log) + 1 else req.prevLogIndex
  }

  /** Never below the old commit index; otherwise the leader's, as far as the log reaches. */
  function FollowerCommit(commitIndex: nat, leaderCommit: nat, lastIndex: nat): nat {
    if leaderCommit <= commitIndex then commitIndex
    else if leaderCommit < lastIndex then leaderCommit
    else lastIndex
  }

  /** A follower of the request's term whose log passed the check takes the entries. */
  function TakeEntries(n: Node, req: AppendRequest): Node {
    var log := Splice(n.log, req.entries, n.commitIndex).log;
    n.(log := log, commitIndex := FollowerCommit(n.commitIndex, req.leaderCommit, LastIndex(log)))
  }

  /** No answer means the handler panicked; the fields keep what it had done by then. */
  function HandleAppendEntries(n: Node, req: AppendRequest): (Node, Option<AppendResponse>) {
    var m := StepDown(n, req.term);
    if req.term < m.currentTerm then (m, Some(AppendResponse(m.currentTerm, false, 0)))
    else
      var f := AcceptLeader(m, req);
      if !PrevMatches(f.log, req) then (f, Some(AppendResponse(n.currentTerm, false, ConflictIndex(f.log, req))))
      else if Splice(f.log, req.entries, f.commitIndex).panicked then
        (f.(log := Splice(f.log, req.entries, f.commitIndex).log), None)
      else (TakeEntries(f, req), Some(AppendResponse(req.term, true, 0)))
  }

  // ----- committed entries -----

  /** A full channel loses its oldest entry. */
  function Pushed(channel: seq<Entry>, entry: Entry): seq<Entry> {
    (if |channel| < COMMIT_CHANNEL_CAPACITY then channel else channel[1..]) + [entry]
  }

  predicate CanApply(n: Node) {
    n.lastApplied < n.commitIndex && n.lastApplied + 1 < |n.log|
  }

  /** One round of the applier: the next entry goes to the channel. */
  function ApplyNext(n: Node): Node {
    if CanApply(n) then
      n.(commitCh := Pushed(n.commitCh, n.log[n.lastApplied + 1]), lastApplied := n.lastApplied + 1)
    else n
  }

  function ApplyAll(n: Node): Node
    decreases n.commitIndex - n.lastApplied
  {
    if CanApply(n) then ApplyAll(ApplyNext(n)) else n
  }

  /** The entries with index at most commitIndex of a batch. */
  function UpTo(batch: seq<Entry>, commitIndex: nat): seq<Entry> {
    if batch == [] then []
    else if batch[|batch| - 1].index <= commitIndex then UpTo(batch[..|batch| - 1], commitIndex) + [batch[|batch| - 1]]
    else UpTo(batch[..|batch| - 1], commitIndex)
  }

  /** The commit index and the log are read one after the other, without holding the lock in between. */
  function SyncLog(commitIndex: nat, log: Entries, fromIndex: nat): seq<Entry> {
    UpTo(From(log, fromIndex), commitIndex)
  }
}
