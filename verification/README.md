# smolRAFT replica: a verified model of its consensus core

The replica of smolRAFT keeps a log of drawing strokes consistent over a fixed set of nodes with a
variant of the Raft protocol (Ongaro and Ousterhout, "In Search of an Understandable Consensus
Algorithm (Extended Version)", sections 5.2 to 5.4). This project models the package
`replica/internal/raft` and proves that protocol safe for clusters of any size and for every run in
which messages may be lost, repeated, delayed and reordered and nodes may stop answering.

## Layout

| file | content |
|---|---|
| Types.dfy | entries, strokes and the messages of the two RPCs |
| Logs.dfy | what the log operations compute; class `Log` |
| NodeState.dfy | a node as a value and what each handler makes of it |
| Replica.dfy | class `Node`: the fields in place, one method per critical section, proved against NodeState.dfy |
| Cluster.dfy | the cluster as a transition system whose steps are those handlers |
| Invariant.dfy, Progress.dfy | what holds in every state; what every step only adds to |
| Quiet.dfy, Quorums.dfy, Elections.dfy, Crowning.dfy | steps of an election |
| Replication.dfy, Following.dfy, CommitRule.dfy, Delivery.dfy | steps of replication, commit and application |
| Runs.dfy | runs taken apart and put together |
| Safety.dfy | every step and every run keeps the invariant |
| Handlers.dfy | what each handler answers and leaves behind, on the message and the fields alone |
| Guarantees.dfy, Offices.dfy, OrderStatistic.dfy, CatchUp.dfy, Promises.dfy, Votes.dfy | the results on safety, catching up and voting |
| Recovery.dfy | from every reachable state the cluster can still elect, replicate and commit |

A node's value (`NodeState.Node`) is what `Replica.Node.View` reads off the object; the class methods
are proved to change it by the same functions the cluster steps use. An event of the cluster is one
critical section of one node (what the program does under one hold of the node's lock) or one message
arriving. Sent messages stay in the state for good, so any of them may arrive any number of times, in any
order or never. An answer is kept with the request it answers, because the program handles it where the
request is still in scope. An election holds the shared vote counter and the peers that have not
answered, takes at most one answer or failure per peer, checks an answer and counts it in two separate
events, as the program does under two locks, and is decided when nothing is left to check or count.

The state also carries a history: for each term the leader, its electing quorum and its log so far, all
granted votes, how far each node confirmed the leader's log in each term, and all entries a node pushed to
its channel. Steps write it and never read it (`Promises.HistoryIsInert`).

## How the proof goes

The central invariants are these. Every log is a patchwork of leader logs: each entry, with all that
precedes it, is a prefix of the log of the leader of its term (`Invariant.Grounded`), which gives log
matching. An entry a leader made in its own term is *closed* once a quorum has left that term without
confirming it; every log that matters (of nodes that confirmed the entry, of candidates those nodes voted
for, of later leaders) holds the entry or the entry is closed (`Invariant.Kept`). An entry a quorum has
confirmed is never closed, since two quorums meet. The invariant is preserved step by step, with no
induction over terms.

That the rules are not too strict is a theorem, too: `Recovery.AlwaysRecovers` builds, from any reachable
state of two or more nodes, a run in which a node with no other's log ahead of its own comes to
lead, takes a stroke, brings every log in line and commits and emits all of it everywhere. A single node
never commits anything, because the commit index moves only on answers (`Recovery.AloneNothingCommits`).

Three places where the code departs from the paper are covered:

- A candidate that hears from the leader of its own term forgets its vote (node.go:191), so a node may vote
  twice in a term. The documentation says it votes only once (README.md:122 and
  replica/internal/raft/ARCHITECTURE.md:44); the code is followed here. `Votes.OneVotePerTermFails` gives the
  run, `Votes.VotesTwiceIff` says exactly in which runs it happens (`Offices.VoteForgottenIff` and
  `Votes.SecondVoteIff` are its two halves at single steps), and `Offices.SecondVoteIsHarmless` why elections
  stay safe.
- A follower clips the leader's commit index at its own last index, not at the last new entry
  (replication.go:313-320). `Guarantees.FollowerCommitIsThePapers` shows that both give the same index.
- Late answers overwrite `nextIndex` and `matchIndex` (replication.go:170-192), in both directions.
  `Guarantees.MatchIndexSound` and the commit rule do not need them to be monotone.

Where FAILURE_SCENARIOS.md:58 speaks of a conflict index 0 for a follower with an empty log, the code sends
its last index plus one; the model follows the code.

## Model

| member | source | states |
|---|---|---|
| Guarantees.StateMachineSafety | replica/internal/raft/replication.go:208-325 | for any reachable state and any later one: an index two nodes (or one node twice) count as committed holds the same entry, term and stroke, in both logs |
| Guarantees.CommittedForever | replica/internal/raft/node.go:184-236 | over any run a node's term, commit index and applied index never fall and its committed prefix never changes |
| Guarantees.LeaderCompleteness | replica/internal/raft/election.go:228-248 | what any node counts as committed is, at the same indices, in the log of every leader of a later term, whether that leader is seen before, when or after the node counts it; and from then on in the log of every leader of the node's own term |
| Guarantees.ElectionSafety | replica/internal/raft/election.go:112-127 | two nodes that lead the same term at any two moments of a run are one node |
| Guarantees.LogMatching | replica/internal/raft/log.go:54-76 | two logs of a run with the same term at an index are identical up to that index |
| Guarantees.NoPanic | replica/internal/raft/log.go:65-70 | in every reachable state every deliverable AppendEntries is answered; the panic on truncating a committed entry is unreachable |
| Guarantees.FollowerCommitIsThePapers | replica/internal/raft/replication.go:312-320 | after a success the log reaches the end of the request; the follower ends with the commit index of the paper's rule and never commits what its leader has not |
| Guarantees.RequestsCommitInside | replica/internal/raft/replication.go:126-141 | every request ever sent has a commit index within its previous index plus its entries, and within what its sender counts as committed |
| Guarantees.MatchIndexSound | replica/internal/raft/replication.go:170-186 | a leader's match index is within its log and within what the peer confirmed in that term; a peer still in the term holds the leader's log up to it; the next index is from 1 to one past the log |
| Guarantees.FallbackNeverRuns | replica/internal/raft/replication.go:187-193 | a refusal that passes the sender's term checks carries an index from 1 up to the previous entry of its request, so the step back by one never runs |
| Guarantees.NodeInvariant | replica/internal/raft/node.go:51-79 | entries carry their positions, log terms are in order and at most the node's term, applied is at most committed, committed at most the last index |
| Guarantees.CommitEmission | replica/internal/raft/node.go:275-299 | everything pushed to the channel is the log from 1 to lastApplied, once each and in order; the channel holds the last at most 256 of it; what two nodes push is prefix-comparable at any two moments |
| Guarantees.SyncLogIsCommitted | replica/internal/raft/replication.go:329-343 | the sync answer is exactly the committed entries from the start on at the moment the commit index was read (from 0 with the sentinel), whatever happens to the log before it is read |
| Guarantees.SyncLogsAgree | replica/internal/raft/replication.go:329-343 | two sync answers from one start, each with its commit index and its log read at two moments, are prefix-comparable across nodes, and of one node's two the later continues the earlier |
| Offices.FrozenThenAppendOnly | replica/internal/raft/election.go:59-75 | within a term a candidate's log is unchanged until the election is decided, a winner's log only grows and it leads until it leaves the term, and a follower stays a follower |
| Offices.VotersSeeTheLog | replica/internal/raft/election.go:64-75 | while its sender is a candidate in the term, a vote request describes exactly the sender's log |
| Offices.VoteForgottenIff | replica/internal/raft/replication.go:262-270 | a step makes a node forget or change its vote without leaving the term if and only if it delivers a request of that term to a node that is not a follower |
| Offices.AppendForgetsVoteIff | replica/internal/raft/node.go:186-192 | the same condition for the handler alone |
| Offices.SecondVoteIsHarmless | replica/internal/raft/election.go:227-243 | if a node has voted for two candidates in a term, somebody had already won the term with a quorum the node is not part of |
| Votes.OneVotePerTermFails | replica/internal/raft/node.go:186-201 | for any three ids there is a run in which one node votes for itself and then for the winner in the same term |
| Votes.VotesTwiceIff | replica/internal/raft/replication.go:262-270 | in a run from the start a node votes for two candidates in a term if and only if a request of the term reaches it while it follows nobody and, later, a vote request of the term with an up-to-date log reaches it in the term without a vote |
| Votes.SecondVoteIff | replica/internal/raft/election.go:227-243 | a node that has voted in a term votes for a new candidate of it if and only if it is in the term, remembers no vote and the candidate's log is up to date |
| Crowning.NoRival | replica/internal/raft/election.go:116-126 | a candidate with the votes of a quorum finds its term without a winner |
| Crowning.WinnerCarries | replica/internal/raft/election.go:126-132 | a winner holds every earlier leader's own entry that can still be committed |
| Elections.UpToDateCarries | replica/internal/raft/election.go:230-236 | a log that passes the up-to-date check keeps everything the voter's log keeps of what the voter confirmed |
| Following.ChosenIsKept | replica/internal/raft/replication.go:208-233 | an entry of its own term that a leader may commit is in the log of every later leader, with all before it |
| Following.SliceIsAdopted | replica/internal/raft/replication.go:273-310 | a request that passes the check does not panic; the follower keeps a log that holds the slice already and otherwise ends with exactly the leader's entries up to the end of the slice |
| CommitRule.CommittableIsChosen | replica/internal/raft/replication.go:215-225 | what the leader's count admits is confirmed by a quorum of the cluster |
| OrderStatistic.CommitIsOrderStatistic | replica/internal/raft/replication.go:205-233 | in every reachable state a success moves the commit index to the majority-th largest of the last index and all match indices if that is new and of the current term, and leaves it otherwise |
| OrderStatistic.ScanIsOrderStatistic | replica/internal/raft/replication.go:208-233 | the same for any node with ordered terms and match indices within its log |
| OrderStatistic.KthLargestIsUnique | replica/internal/raft/replication.go:223-224 | the majority-th largest value is determined |
| Recovery.AlwaysRecovers | replica/internal/raft/replication.go:113-233 | from every reachable state of two or more nodes and for any stroke there is a run that ends with one leader known to all in one term and one log everywhere, the stroke last, all committed and emitted by every node, nothing committed before lost |
| Recovery.ElectSomeone | replica/internal/raft/election.go:59-142 | from every reachable state of two or more nodes there is a run after which some node leads and nobody's term is ahead of it |
| Recovery.AloneNothingCommits | replica/internal/raft/replication.go:170-186 | the commit index of a node without peers is 0 in every reachable state |
| CatchUp.CatchesUp | replica/internal/raft/replication.go:187-193 | leader and follower on their own: after every row of at least nextIndex exchanges, or of at least the follower's last index plus 2, the follower agrees with the leader through its last index, knows it as leader and has committed at least what the leader had |
| CatchUp.CanExchangeOn | replica/internal/raft/replication.go:113-203 | from any leader and peer not ahead of it, a row of any number of exchanges is possible |
| CatchUp.OneExchange | replica/internal/raft/replication.go:273-320 | every exchange leaves the follower with the leader's whole log, its leader and at least its commit index, or leaves its log alone and lowers nextIndex to at most one past the follower's log; it never takes the whole log away again |
| CatchUp.RequestCoversLog | replica/internal/raft/replication.go:126-141 | in a reachable state a leader's request reaches the end of its log and carries its commit index |
| Promises.NothingInvented | replica/internal/raft/replication.go:15-40 | every entry of every log carries a stroke handed to some node in the run |
| Promises.LeaderHintsAgree | replica/internal/raft/replication.go:258-271 | leader ids known by nodes of one term agree with each other and with the node that leads it |
| Promises.LeaderIsLearned | replica/internal/raft/replication.go:258-271 | whoever receives a request of its own or a later term then follows its sender, in that term, and names it as leader, whatever the log check says; the sender is the winner of the term |
| Promises.ElectedIff | replica/internal/raft/election.go:112-142 | an election makes a leader if and only if its candidate still is one in its term and distinct voters that granted it their votes are more than half of the cluster; otherwise the node is unchanged |
| Promises.SuccessIsBooked | replica/internal/raft/replication.go:170-176 | a success sets that peer's next and match index to where its request ended in the leader's log and changes no other; an empty one changes none |
| Promises.HigherTermSupersedes | replica/internal/raft/node.go:301-309 | each of the four handlers leaves the node in the higher of the two terms, as a follower when it was behind; requests never leave it below their term |
| Promises.HistoryIsInert | replica/internal/raft/node.go:51-91 | the recorded history decides nothing: with any other the same events are enabled and do the same |
| Safety.StepKeepsInv | replica/internal/raft/node.go:51-57 | every event keeps the cluster invariant, and terms, confirmations, leader logs and committed prefixes only grow |
| Safety.RunKeepsInv | replica/internal/raft/node.go:51-57 | the same over every run |
| Safety.InitInv | replica/internal/raft/node.go:96-135 | a cluster of fresh nodes satisfies the invariant |
| Handlers.VoteGrantedIff | replica/internal/raft/election.go:203-248 | a vote is granted if and only if the term is not older, the voter is free in it, and (last term, last index) is lexicographically no less than the voter's |
| Handlers.VoteAnswer | replica/internal/raft/election.go:203-262 | a refusal carries the term from before the step-down; a higher term is taken over in any case, and no other field changes |
| Handlers.OneVotesForTheOther | replica/internal/raft/election.go:230-236 | asked in a new term, of any two nodes one votes for the other, both exactly if their logs end alike: no two logs exclude each other |
| Handlers.VoteCountsIff | replica/internal/raft/election.go:169-183 | an answer counts if and only if it grants the vote to a candidate still in the election's term; a higher term deposes |
| Handlers.LeastMajority | replica/internal/raft/election.go:78-80 | the count to win is the least that is more than half of the cluster |
| Handlers.LeadsIff | replica/internal/raft/election.go:112-142 | a candidate still in the term with more than half of the votes becomes leader with all next indices past its log and all match indices 0; anyone else is unchanged |
| Handlers.StrokeTaken | replica/internal/raft/replication.go:15-40 | a leader's log gains exactly the stroke under its term and the next index; nobody else's changes |
| Handlers.RequestSays | replica/internal/raft/replication.go:113-141 | a request goes out if and only if the node leads and knows the peer; it holds all entries from the next index on, the entry before them and the commit index |
| Handlers.LeaderAccepted | replica/internal/raft/replication.go:240-271 | a request of an older term changes nothing; any other leaves a follower of its sender in its term, and only a follower of that term keeps its vote |
| Handlers.AppendAnsweredIff | replica/internal/raft/replication.go:273-325 | success if and only if the log has the previous entry; a refusal points at that entry or just past the end and changes neither log nor commit index; the commit index otherwise follows the leader's as far as the log reaches |
| Handlers.RefusalTaken | replica/internal/raft/replication.go:157-203 | a higher term deposes, an answer of another term is ignored, a refusal moves that peer's next index where it points |
| Handlers.PushKeepsLast | replica/internal/raft/node.go:288-294 | a push drops nothing but the oldest entry of a full channel of 256 |
| Handlers.AppliesAll | replica/internal/raft/node.go:277-299 | the applier pushes each entry after lastApplied up to the commit index once and in order; the channel ends with the last 256 |
| Handlers.SpliceRenumbers | replica/internal/raft/log.go:58-74 | entries that claim positions past the end are appended under the positions they get |
| Logs.SpliceClosedForm | replica/internal/raft/log.go:54-76 | a gapless batch is skipped when all there, else the log is cut at the first entry it lacks and the rest follows; it panics exactly when the cut would remove a committed entry, and then nothing has changed |
| Logs.SpliceIdempotent | replica/internal/raft/log.go:54-76 | a batch delivered again changes nothing; everything before it stays; the old tail goes only when the log ends with the batch |
| Logs.SpliceFromLeader | replica/internal/raft/log.go:54-76 | for a slice of a leader's log: unchanged if it agrees through the slice, otherwise exactly the leader's log up to its end; no panic when the committed part agrees |
| Logs.SpliceKeepsAgreement | replica/internal/raft/log.go:54-76 | no slice of the leader's log, however old, reduces agreement with it |
| Logs.Log.constructor | replica/internal/raft/log.go:24-31 | a new log holds the sentinel only |
| Logs.Log.Append | replica/internal/raft/log.go:33-42 | the entry goes to the end under the next index, which is returned |
| Logs.Log.AppendEntries | replica/internal/raft/log.go:54-76 | the loop computes Splice on the stored entries, also when it panics half way |
| Replica.Node.constructor | replica/internal/raft/node.go:93-135 | a follower of term 0 with an empty log |
| Replica.Node.BecomeFollower | replica/internal/raft/node.go:186-201 | the new state, with the vote cleared in any case |
| Replica.Node.BecomeCandidate | replica/internal/raft/node.go:206-215 | the new state: next term, vote for itself |
| Replica.Node.BecomeLeader | replica/internal/raft/node.go:220-236 | the loop over the peers sets every next index one past the log and every match index to 0 |
| Replica.Node.StepDown | replica/internal/raft/node.go:303-309 | a higher term makes a follower, any other changes nothing |
| Replica.Node.StartElection | replica/internal/raft/election.go:59-75 | the candidate and the request that describes its log |
| Replica.Node.CheckVote | replica/internal/raft/election.go:169-183 | an answer of a higher term makes a follower; otherwise a granted vote counts only for a candidate still in the election's term |
| Replica.Node.FinishElection | replica/internal/raft/election.go:112-142 | leader if and only if still a candidate of the term with a majority |
| Replica.Node.HandleVoteRequest | replica/internal/raft/election.go:203-262 | new state and answer of the vote handler in all its branches |
| Replica.Node.HandleStroke | replica/internal/raft/replication.go:15-40 | only a leader appends, under its term |
| Replica.Node.PrepareAppend | replica/internal/raft/replication.go:113-141 | the request for a peer, or none when not leading |
| Replica.Node.HandleAppendResponse | replica/internal/raft/replication.go:157-203 | new state after an answer in all its branches |
| Replica.Node.CountPeers | replica/internal/raft/replication.go:215-221 | the loop counts the peers known to hold the entry |
| Replica.Node.AdvanceCommitIndex | replica/internal/raft/replication.go:208-233 | the upward scan ends at the highest committable index |
| NodeState.HighestCommittable | replica/internal/raft/replication.go:208-233 | committable itself, or the old index; nothing above it up to the end is committable |
| Replica.Node.AcceptLeader | replica/internal/raft/replication.go:258-271 | a request of the current term makes a follower and names the leader |
| Replica.Node.TakeEntries | replica/internal/raft/replication.go:301-320 | append and commit, or the state a panic leaves |
| Replica.Node.HandleAppendEntries | replica/internal/raft/replication.go:240-325 | new state and answer of the handler in all its branches |
| Replica.Node.ApplyEntry | replica/internal/raft/node.go:283-297 | one round: the entry after lastApplied goes to the channel, the oldest is dropped when it is full, or there is no such entry and nothing changes |
| Replica.Node.ApplyCommitted | replica/internal/raft/node.go:277-299 | the loop pushes entry after entry up to the commit index, dropping the oldest when the channel is full |
| Replica.Node.GetSyncLog | replica/internal/raft/replication.go:329-343 | the entries from an index on whose index is at most the commit index |
| Replica.Node.FilterCommitted | replica/internal/raft/replication.go:334-342 | the filtering loop on a copy of the log, given the commit index read before |

## Left out

- HTTP, JSON, logging, contexts, `rpc.go` and the server: they appear only as messages that may or may not arrive.
- Time: an election timeout is possible whenever a node is not leading and no election of its own is under way; heartbeats and replication signals are the event of sending at any moment.
- Crash and restart: all state is in memory, so a restarted node has forgotten its vote and log; a node may stop for good.
- Liveness: that a leader is elected in the end depends on timing; proved is that it is always possible, and a bound for two nodes.
- The `/heartbeat` endpoint: it drops the entries of a request and keeps its commit index; no replica calls it.
- The gateway, the frontend and the notification of the gateway by whoever leads when an entry is consumed.
- Machine integers: indices and terms are unbounded naturals, so negative numbers in hand-made requests and overflow are not modelled.
- Replica.Node.ApplyCommitted: runs in one go here, while the program takes the lock anew for each entry; the cluster's event applies one entry, so all interleavings are covered there.
- A full channel losing its oldest entry is one step; a consumer that empties the channel between the two halves of that step is not modelled.
- `FetchSyncLog` and `Status`: the first is never called, the second only reads fields.
- Addresses: a peer is named by its id, which assumes one address per id and no node listed as its own peer.
