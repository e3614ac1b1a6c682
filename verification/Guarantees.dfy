/** What the protocol promises, stated on the nodes alone, for every cluster and every run. */
module Guarantees {
  import opened Types
  import opened Logs
  import opened NodeState
  import opened Cluster
  import opened Runs
  import opened Invariant
  import opened Quorums
  import opened Progress
  import opened Following
  import opened Delivery
  import opened Safety

  // ----- configuration -----

  lemma Configured(s: State, n: Id)
    requires Reachable(s) && n in s.nodes
    ensures s.nodes[n].id == n && n in s.elections && n in s.h.emitted && n != NOBODY
    ensures forall p :: p in s.nodes[n].peers <==> p in s.nodes && p != n
    ensures |s.nodes[n].peers| + 1 == |s.nodes|
  {
    hide LeaderLogs, NodeLogs, Leadership, Ledger, NodesCarry, LeadersCarry, Commits, Appends, AppendReplies, Books,
      Emission, VoteInv, Reachable;
    ReachableInv(s);
    DistinctSize(s.nodes[n].peers);
    assert s.nodes.Keys == (set p | p in s.nodes[n].peers) + {n};
  }

  // ----- elections -----

  lemma LeaderIsRecorded(s: State, n: Id)
    requires Leadership(s) && n in s.nodes && s.nodes[n].role == Leader
    ensures s.nodes[n].currentTerm in s.h.leaderOf && s.h.leaderOf[s.nodes[n].currentTerm] == n
    ensures s.nodes[n].currentTerm in s.h.leaderLog && s.h.leaderLog[s.nodes[n].currentTerm] == s.nodes[n].log
  {}

  lemma RecordStays(s: State, t: State, term: nat)
    requires Evolves(s, t) && term in s.h.leaderOf
    ensures term in t.h.leaderOf && t.h.leaderOf[term] == s.h.leaderOf[term]
  {}

  /** Election safety: two nodes that lead the same term, at whatever moments of a run, are the same node. */
  lemma ElectionSafety(s: State, events: seq<Event>, t: State, a: Id, b: Id)
    requires Reachable(s) && Run(s, events, t)
    requires a in s.nodes && s.nodes[a].role == Leader && b in t.nodes && t.nodes[b].role == Leader
    requires s.nodes[a].currentTerm == t.nodes[b].currentTerm
    ensures a == b
  {
    hide Evolves, Config, LeaderLogs, NodeLogs, Leadership, Ledger, NodesCarry, LeadersCarry, Commits, Appends,
      AppendReplies, Books, Emission, VoteInv, Run, Reachable;
    LaterInv(s, events, t);
    LeaderIsRecorded(s, a);
    LeaderIsRecorded(t, b);
    RecordStays(s, t, s.nodes[a].currentTerm);
  }

  // ----- logs -----

  /**
   * Log matching: if two logs, at whatever moments, hold an entry of the same term at the same index,
   * they are identical up to it.
   */
  lemma LogMatching(s: State, events: seq<Event>, t: State, a: Id, b: Id, i: nat)
    requires Reachable(s) && Run(s, events, t) && a in s.nodes && b in t.nodes
    requires i < |s.nodes[a].log| && i < |t.nodes[b].log| && s.nodes[a].log[i].term == t.nodes[b].log[i].term
    ensures Agree(s.nodes[a].log, t.nodes[b].log, i)
  {
    hide Evolves, Config, LeaderLogs, Leadership, Ledger, NodesCarry, LeadersCarry, Commits, Appends,
      AppendReplies, Books, Emission, VoteInv, Run, Reachable, Grounded;
    LaterInv(s, events, t);
    GroundedStays(s, t, s.nodes[a].log);
    SameTermSamePrefix(t, s.nodes[a].log, t.nodes[b].log, i);
  }

  // ----- commitment -----

  lemma NodeIsGrounded(s: State, n: Id)
    requires NodeLogs(s) && n in s.nodes
    ensures Grounded(s, s.nodes[n].log) && s.nodes[n].log[0] == SENTINEL
  {}

  /**
   * Leader completeness: whatever any node counts as committed is in the log of every leader of a later
   * term, at that time, at any later time, and at any earlier time, even of a leader deposed before the
   * commitment; from then on it is in the log of every leader of the node's own term, too.
   */
  lemma LeaderCompleteness(s: State, events: seq<Event>, t: State, a: Id, b: Id)
    requires Reachable(s) && Run(s, events, t) && a in s.nodes && b in t.nodes
    ensures t.nodes[b].role == Leader && s.nodes[a].currentTerm <= t.nodes[b].currentTerm ==>
              Agree(s.nodes[a].log, t.nodes[b].log, s.nodes[a].commitIndex)
    ensures s.nodes[a].role == Leader && t.nodes[b].currentTerm < s.nodes[a].currentTerm ==>
              Agree(t.nodes[b].log, s.nodes[a].log, t.nodes[b].commitIndex)
  {
    if t.nodes[b].role == Leader && s.nodes[a].currentTerm <= t.nodes[b].currentTerm {
      LeaderAtOrAfter(s, events, t, a, b);
    }
    if s.nodes[a].role == Leader && t.nodes[b].currentTerm < s.nodes[a].currentTerm {
      LeaderBefore(s, events, t, a, b);
    }
  }

  /** The leader is seen when the node counts the entries as committed, or later. */
  lemma LeaderAtOrAfter(s: State, events: seq<Event>, t: State, n: Id, l: Id)
    requires Reachable(s) && Run(s, events, t) && n in s.nodes && l in t.nodes
    requires t.nodes[l].role == Leader && s.nodes[n].currentTerm <= t.nodes[l].currentTerm
    ensures Agree(s.nodes[n].log, t.nodes[l].log, s.nodes[n].commitIndex)
  {
    hide Evolves, Config, LeaderLogs, NodeLogs, Leadership, Ledger, NodesCarry, LeadersCarry, Appends,
      AppendReplies, Books, Emission, VoteInv, Run, Reachable, Grounded, Backed;
    LaterInv(s, events, t);
    StillBacked(s, t, s.nodes[n]);
    LeaderIsRecorded(t, l);
    NodeIsGrounded(s, n);
    BackedIsKept(t, s.nodes[n].log, s.nodes[n].commitIndex, s.nodes[n].currentTerm, t.nodes[l].currentTerm);
  }

  /** A leader of a later term is seen before the node counts the entries as committed. */
  lemma LeaderBefore(s: State, events: seq<Event>, t: State, l: Id, n: Id)
    requires Reachable(s) && Run(s, events, t) && l in s.nodes && n in t.nodes
    requires s.nodes[l].role == Leader && t.nodes[n].currentTerm < s.nodes[l].currentTerm
    ensures Agree(t.nodes[n].log, s.nodes[l].log, t.nodes[n].commitIndex)
  {
    hide Evolves, Config, LeaderLogs, NodeLogs, Leadership, Ledger, NodesCarry, LeadersCarry, Appends,
      AppendReplies, Books, Emission, VoteInv, Run, Reachable, Grounded, Backed, GoesOn;
    LaterInv(s, events, t);
    LeaderIsRecorded(s, l);
    RecordGoesOn(s, t, s.nodes[l].currentTerm);
    NodeIsGrounded(s, l);
    NodeIsGrounded(t, n);
    BackedWasKept(t, t.nodes[n].log, t.nodes[n].commitIndex, t.nodes[n].currentTerm, s.nodes[l].currentTerm,
                  s.nodes[l].log);
  }

  lemma RecordGoesOn(s: State, t: State, term: nat)
    requires Evolves(s, t) && term in s.h.leaderLog
    ensures term in t.h.leaderLog && GoesOn(term, s.h.leaderLog[term], t.h.leaderLog[term])
  {}

  /** What was committed by an earlier term, a later leader has had since before its own first entry. */
  lemma BackedWasKept(s: State, log: Entries, c: nat, term: nat, w: nat, before: Entries)
    requires LeadersCarry(s) && Backed(s, log, c, term) && log[0] == before[0]
    requires term < w && w in s.h.leaderLog && GoesOn(w, before, s.h.leaderLog[w])
    ensures Agree(log, before, c)
  {
    if c > 0 {
      var u: nat, k: nat :| BackedBy(s, log, c, term, u, k);
      ChosenIsKept(s, u, k, w);
      assert s.h.leaderLog[w][k].term == u;
      assert k < |before|;
    }
  }

  /** Two committed prefixes of one state agree as far as both reach. */
  lemma BackedAgree(s: State, a: Entries, b: Entries, c: nat, d: nat, p: nat, q: nat, i: nat)
    requires LeadersCarry(s) && Backed(s, a, c, p) && Backed(s, b, d, q) && i <= c && i <= d
    requires a[0] == b[0]
    ensures i < |a| && i < |b| && a[i] == b[i]
  {
    if i > 0 {
      var u: nat, k: nat :| BackedBy(s, a, c, p, u, k);
      var w: nat, j: nat :| BackedBy(s, b, d, q, w, j);
      if u <= w {
        ChosenIsKept(s, u, k, w);
      } else {
        ChosenIsKept(s, w, j, u);
      }
    }
  }

  /**
   * State machine safety: an index that one node counts as committed now and another counts as
   * committed now or later holds the same entry, term and stroke, in both.
   */
  lemma StateMachineSafety(s: State, events: seq<Event>, t: State, a: Id, b: Id, i: nat)
    requires Reachable(s) && Run(s, events, t) && a in s.nodes && b in t.nodes
    requires i <= s.nodes[a].commitIndex && i <= t.nodes[b].commitIndex
    ensures i < |s.nodes[a].log| && i < |t.nodes[b].log| && s.nodes[a].log[i] == t.nodes[b].log[i]
  {
    hide Evolves, Config, LeaderLogs, NodeLogs, Leadership, Ledger, NodesCarry, LeadersCarry, Appends,
      AppendReplies, Books, Emission, VoteInv, Run, Reachable, Grounded, Backed;
    LaterInv(s, events, t);
    NodeIsGrounded(s, a);
    NodeIsGrounded(t, b);
    StillBacked(s, t, s.nodes[a]);
    BackedAgree(t, s.nodes[a].log, t.nodes[b].log, s.nodes[a].commitIndex, t.nodes[b].commitIndex,
                s.nodes[a].currentTerm, t.nodes[b].currentTerm, i);
  }

  /** Terms, commit and applied indices never fall, and a committed entry is never replaced. */
  lemma CommittedForever(s: State, events: seq<Event>, t: State, n: Id)
    requires Reachable(s) && Run(s, events, t) && n in s.nodes
    ensures n in t.nodes && s.nodes[n].currentTerm <= t.nodes[n].currentTerm
    ensures s.nodes[n].commitIndex <= t.nodes[n].commitIndex && s.nodes[n].lastApplied <= t.nodes[n].lastApplied
    ensures Agree(s.nodes[n].log, t.nodes[n].log, s.nodes[n].commitIndex)
  {
    hide Config, LeaderLogs, NodeLogs, Leadership, Ledger, NodesCarry, LeadersCarry, Commits, Appends,
      AppendReplies, Books, Emission, VoteInv, Run, Reachable, Backed;
    LaterInv(s, events, t);
    assert Settled(s.nodes[n], t.nodes[n]);
    assert s.nodes[n].commitIndex <= t.nodes[n].commitIndex;
    hide Evolves, Settled;
    StateMachineSafety(s, events, t, n, n, s.nodes[n].commitIndex);
    forall i: nat | i <= s.nodes[n].commitIndex
      ensures i < |s.nodes[n].log| && i < |t.nodes[n].log| && s.nodes[n].log[i] == t.nodes[n].log[i]
    {
      StateMachineSafety(s, events, t, n, n, i);
    }
  }

  // ----- followers -----

  /** The panic on truncating a committed entry is never reached: every request gets an answer. */
  lemma NoPanic(s: State, m: AppendMsg)
    requires Reachable(s) && Enabled(s, DeliverAppend(m))
    ensures HandleAppendEntries(s.nodes[m.to], m.req).1.Some?
  {
    hide Inv, Evolves, Reachable;
    ReachableInv(s);
    DeliverAppendKeepsInv(s, m);
  }

  /** No request ever sent claims a commit index beyond the entries it vouches for. */
  lemma RequestsCommitInside(s: State, m: AppendMsg)
    requires Reachable(s) && m in s.appends
    ensures m.req.leaderCommit <= EndOf(m.req)
    ensures m.req.leaderId in s.nodes && m.req.leaderCommit <= s.nodes[m.req.leaderId].commitIndex
  {
    hide Inv, Reachable, Backed;
    ReachableInv(s);
    MessagesHold(s);
    assert AppendOK(s, m);
  }

  /** The rule of the paper: never beyond the last entry the request vouches for. */
  function PaperCommit(commitIndex: nat, req: AppendRequest): nat {
    if req.leaderCommit <= commitIndex then commitIndex
    else if req.leaderCommit < EndOf(req) then req.leaderCommit
    else EndOf(req)
  }

  lemma TakenCommit(n: Node, req: AppendRequest)
    requires var answer := HandleAppendEntries(n, req).1; answer.Some? && answer.value.success
    ensures var m := HandleAppendEntries(n, req).0;
            && m.currentTerm == req.term
            && m.commitIndex == FollowerCommit(n.commitIndex, req.leaderCommit, LastIndex(m.log))
  {}

  /**
   * No request claims a commit index beyond its own entries, so clipping at the follower's last index,
   * which may lie beyond them, commits what clipping at the last new entry would; and it commits
   * nothing its leader does not count as committed itself.
   */
  lemma FollowerCommitIsThePapers(s: State, m: AppendMsg)
    requires Reachable(s) && Enabled(s, DeliverAppend(m))
    requires var answer := HandleAppendEntries(s.nodes[m.to], m.req).1; answer.Some? && answer.value.success
    ensures m.req.leaderCommit <= EndOf(m.req)
    ensures var t := Step(s, DeliverAppend(m));
            && EndOf(m.req) < |t.nodes[m.to].log|
            && t.nodes[m.to].commitIndex == PaperCommit(s.nodes[m.to].commitIndex, m.req)
            && m.req.leaderId in s.nodes
            && (t.nodes[m.to].commitIndex > s.nodes[m.to].commitIndex ==>
                  t.nodes[m.to].commitIndex <= s.nodes[m.req.leaderId].commitIndex)
  {
    hide Inv, Reachable, Backed, Evolves, Agree, HandleAppendEntries;
    ReachableInv(s);
    MessagesHold(s);
    assert AppendOK(s, m);
    TakenCommit(s.nodes[m.to], m.req);
    var t := Step(s, DeliverAppend(m));
    DeliverAppendKeepsInv(s, m);
    MessagesHold(t);
    assert ReplyOK(t, AppendReply(m, HandleAppendEntries(s.nodes[m.to], m.req).1.value));
    ConfirmedReaches(t, m);
  }

  /** A follower that confirmed a request and is still in its term holds it. */
  lemma ConfirmedReaches(t: State, m: AppendMsg)
    requires Inv(t) && AppendOK(t, m) && t.nodes[m.to].currentTerm == m.req.term
    requires EndOf(m.req) <= Acked(t, m.to, m.req.term)
    ensures EndOf(m.req) < |t.nodes[m.to].log|
  {
    hide Config, LeaderLogs, NodeLogs, Leadership, NodesCarry, LeadersCarry, Commits, Appends,
      AppendReplies, Books, Emission, VoteInv;
  }

  // ----- leaders -----

  lemma BookHolds(s: State, l: Id)
    requires Inv(s) && l in s.nodes && s.nodes[l].role == Leader
    ensures BookOK(s, s.nodes[l]) && s.nodes[l].id == l
    ensures forall p :: p in s.nodes[l].peers <==> p in s.nodes && p != l
  {
    hide LeaderLogs, NodeLogs, Leadership, Ledger, NodesCarry, LeadersCarry, Commits, Appends, AppendReplies, Emission,
      VoteInv, BookOK;
  }

  lemma ConfirmedAgrees(s: State, l: Id, p: Id, k: nat)
    requires Leadership(s) && Ledger(s) && l in s.nodes && p in s.nodes && s.nodes[l].role == Leader
    requires k <= Acked(s, p, s.nodes[l].currentTerm) && s.nodes[p].currentTerm == s.nodes[l].currentTerm
    ensures Agree(s.nodes[l].log, s.nodes[p].log, k)
  {}

  /**
   * Match indices are sound although late answers overwrite them: a peer that is still in the leader's
   * term holds the leader's log up to its match index, and no match index lies beyond the leader's log.
   */
  lemma MatchIndexSound(s: State, l: Id, p: Id)
    requires Reachable(s) && l in s.nodes && s.nodes[l].role == Leader && p in s.nodes[l].peers
    ensures p in s.nodes && p in s.nodes[l].matchIndex && p in s.nodes[l].nextIndex
    ensures s.nodes[l].matchIndex[p] <= Acked(s, p, s.nodes[l].currentTerm)
    ensures s.nodes[l].matchIndex[p] <= LastIndex(s.nodes[l].log)
    ensures 1 <= s.nodes[l].nextIndex[p] <= LastIndex(s.nodes[l].log) + 1
    ensures s.nodes[p].currentTerm == s.nodes[l].currentTerm ==>
              Agree(s.nodes[l].log, s.nodes[p].log, s.nodes[l].matchIndex[p])
  {
    hide Config, LeaderLogs, NodeLogs, Leadership, Ledger, NodesCarry, LeadersCarry, Commits, Appends, AppendReplies,
      Books, Emission, VoteInv, Agree, Reachable;
    ReachableInv(s);
    BookHolds(s, l);
    MatchInLog(s, l, p);
    if s.nodes[p].currentTerm == s.nodes[l].currentTerm {
      ConfirmedAgrees(s, l, p, s.nodes[l].matchIndex[p]);
    }
  }

  lemma MatchInLog(s: State, l: Id, p: Id)
    requires Leadership(s) && Ledger(s) && l in s.nodes && p in s.nodes && s.nodes[l].role == Leader
    ensures Acked(s, p, s.nodes[l].currentTerm) <= LastIndex(s.nodes[l].log)
  {}

  /**
   * The fallback that steps back by one never runs: an answer that gets past the sender's term checks and
   * is a refusal names an index from 1 up to the previous entry of its request, which lies in the leader's log.
   */
  lemma FallbackNeverRuns(s: State, r: AppendReply)
    requires Reachable(s) && Enabled(s, AnswerAppend(r)) && !r.resp.success
    requires var n := s.nodes[r.msg.req.leaderId];
             n.role == Leader && n.currentTerm == r.msg.req.term && r.resp.term <= n.currentTerm
    ensures 1 <= r.resp.conflictIndex <= r.msg.req.prevLogIndex <= LastIndex(s.nodes[r.msg.req.leaderId].log)
  {
    hide Config, LeaderLogs, NodeLogs, Ledger, NodesCarry, LeadersCarry, Commits, Appends, Books, Emission, VoteInv,
      Backed, Reachable;
    ReachableInv(s);
    assert ReplyOK(s, r);
  }

  // ----- one node -----

  lemma GroundedIsOrdered(s: State, log: Entries, term: nat)
    requires LeaderLogs(s) && Grounded(s, log) && TermsUpTo(log, term)
    ensures forall i :: 0 <= i < |log| ==> log[i].index == i && log[i].term <= term
    ensures forall i, j :: 0 <= i <= j < |log| ==> log[i].term <= log[j].term
  {
    forall i, j | 0 <= i <= j < |log| ensures log[i].term <= log[j].term {
      if i > 0 {
        assert Agree(log, s.h.leaderLog[log[j].term], j);
        assert TermsUpTo(s.h.leaderLog[log[j].term], log[j].term);
        assert s.h.leaderLog[log[j].term][i] == log[i];
      }
    }
  }

  /** Positions are indices, terms are in order and at most the node's, and applied <= committed <= last. */
  lemma NodeInvariant(s: State, n: Id)
    requires Reachable(s) && n in s.nodes
    ensures var m := s.nodes[n];
            && m.log[0] == SENTINEL
            && (forall i :: 0 <= i < |m.log| ==> m.log[i].index == i && m.log[i].term <= m.currentTerm)
            && (forall i, j :: 0 <= i <= j < |m.log| ==> m.log[i].term <= m.log[j].term)
            && m.lastApplied <= m.commitIndex <= LastIndex(m.log)
  {
    hide Config, Leadership, Ledger, NodesCarry, LeadersCarry, Appends, AppendReplies, Books, Emission, VoteInv,
      Reachable;
    ReachableInv(s);
    GroundedIsOrdered(s, s.nodes[n].log, s.nodes[n].currentTerm);
  }

  // ----- committed entries -----

  lemma EmittedHolds(s: State, n: Id)
    requires Inv(s) && n in s.nodes
    ensures n in s.h.emitted && EmissionOK(s.nodes[n], s.h.emitted[n])
    ensures s.nodes[n].lastApplied <= s.nodes[n].commitIndex
  {
    hide LeaderLogs, NodeLogs, Leadership, Ledger, NodesCarry, LeadersCarry, Appends, AppendReplies, Books, VoteInv,
      EmissionOK, Backed;
  }

  /**
   * Everything a node ever pushed to its channel is its log from 1 to lastApplied, each index once and in
   * order; the channel holds at most 256 entries, always the last of them; and what one node has pushed
   * is, at any moment, a prefix of what another pushes or the other way round.
   */
  lemma CommitEmission(s: State, events: seq<Event>, t: State, a: Id, b: Id)
    requires Reachable(s) && Run(s, events, t) && a in s.nodes && b in t.nodes
    ensures a in s.h.emitted && b in t.h.emitted
    ensures var n := s.nodes[a];
            && n.lastApplied < |n.log| && s.h.emitted[a] == n.log[1..n.lastApplied + 1]
            && |n.commitCh| <= 256 && |n.commitCh| <= |s.h.emitted[a]|
            && n.commitCh == s.h.emitted[a][|s.h.emitted[a]| - |n.commitCh|..]
    ensures s.h.emitted[a] <= t.h.emitted[b] || t.h.emitted[b] <= s.h.emitted[a]
  {
    hide Inv, Evolves, Reachable, Run;
    LaterInv(s, events, t);
    EmittedHolds(s, a);
    EmittedHolds(t, b);
    forall i | 0 <= i < |s.h.emitted[a]| && i < |t.h.emitted[b]| ensures s.h.emitted[a][i] == t.h.emitted[b][i] {
      StateMachineSafety(s, events, t, a, b, i + 1);
    }
  }

  /** The entries up to a limit, of a log that numbers its entries by position. */
  lemma {:induction false} UpToIsSlice(batch: seq<Entry>, start: nat, limit: nat)
    requires Contiguous(batch, start)
    ensures UpTo(batch, limit) == if limit < start then []
                                  else if limit < start + |batch| then batch[..limit - start + 1]
                                  else batch
    decreases |batch|
  {
    if batch != [] {
      UpToIsSlice(batch[..|batch| - 1], start, limit);
    }
  }

  /** The committed entries from an index on. */
  function Committed(n: Node, from: nat): seq<Entry>
    requires n.commitIndex < |n.log|
  {
    if from <= n.commitIndex then n.log[from..n.commitIndex + 1] else []
  }

  /**
   * A sync request reads the commit index at one moment and the log at a later one; the answer is exactly
   * the committed entries of the first moment, whatever was appended or truncated in between.
   */
  lemma SyncLogIsCommitted(s: State, events: seq<Event>, t: State, n: Id, from: nat)
    requires Reachable(s) && Run(s, events, t) && n in s.nodes
    ensures n in t.nodes && s.nodes[n].commitIndex < |s.nodes[n].log|
    ensures SyncLog(s.nodes[n].commitIndex, t.nodes[n].log, from) == Committed(s.nodes[n], from)
  {
    hide Reachable, Run;
    CommittedForever(s, events, t, n);
    LaterReachable(s, events, t);
    NodeInvariant(t, n);
    var log := t.nodes[n].log;
    if from < |log| {
      assert Contiguous(log[from..], from);
      UpToIsSlice(log[from..], from, s.nodes[n].commitIndex);
    }
  }

  /** The committed entries of two nodes from the same index agree as far as both reach; a node's own only grow. */
  lemma CommittedAgree(s: State, events: seq<Event>, t: State, a: Id, b: Id, from: nat)
    requires Reachable(s) && Run(s, events, t) && a in s.nodes && b in t.nodes
    ensures s.nodes[a].commitIndex < |s.nodes[a].log| && t.nodes[b].commitIndex < |t.nodes[b].log|
    ensures var x, y := Committed(s.nodes[a], from), Committed(t.nodes[b], from);
            (x <= y || y <= x) && (a == b ==> x <= y)
  {
    hide Reachable, Run;
    LaterReachable(s, events, t);
    NodeInvariant(s, a);
    NodeInvariant(t, b);
    if a == b { CommittedForever(s, events, t, a); }
    var x, y := Committed(s.nodes[a], from), Committed(t.nodes[b], from);
    forall i | 0 <= i < |x| && i < |y| ensures x[i] == y[i] {
      StateMachineSafety(s, events, t, a, b, from + i);
    }
  }

  /**
   * Two sync requests from the same index: a reads its commit index in s and its log in the later s2, b reads
   * its commit index in t, not before s, and its log in the later t2. The two answers agree as far as both
   * reach, and of one node's two answers the second continues the first.
   */
  lemma SyncLogsAgree(s: State, toLogA: seq<Event>, s2: State, events: seq<Event>, t: State, toLogB: seq<Event>,
                      t2: State, a: Id, b: Id, from: nat)
    requires Reachable(s) && Run(s, toLogA, s2) && Run(s, events, t) && Run(t, toLogB, t2)
    requires a in s.nodes && b in t.nodes
    ensures a in s2.nodes && b in t2.nodes
    ensures var x := SyncLog(s.nodes[a].commitIndex, s2.nodes[a].log, from);
            var y := SyncLog(t.nodes[b].commitIndex, t2.nodes[b].log, from);
            (x <= y || y <= x) && (a == b ==> x <= y)
  {
    hide Reachable, Run, SyncLog, Committed;
    LaterReachable(s, events, t);
    SyncLogIsCommitted(s, toLogA, s2, a, from);
    SyncLogIsCommitted(t, toLogB, t2, b, from);
    CommittedAgree(s, events, t, a, b, from);
  }
}
