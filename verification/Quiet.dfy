/** Steps that touch one node's term, role and vote, and leave logs, commit indices and confirmations alone. */
module Quiet {
  import opened Types
  import opened Logs
  import opened NodeState
  import opened Cluster
  import opened Invariant
  import opened Progress

  ghost predicate SameData(n: Node, m: Node) {
    && m.id == n.id && m.peers == n.peers && m.log == n.log && n.currentTerm <= m.currentTerm
    && m.commitIndex == n.commitIndex && m.lastApplied == n.lastApplied && m.commitCh == n.commitCh
  }

  /** A leader keeps its books or leaves its term; nobody becomes leader. */
  ghost predicate SameOffice(n: Node, m: Node) {
    && (m.role == Leader ==>
          && n.role == Leader && m.currentTerm == n.currentTerm
          && m.nextIndex == n.nextIndex && m.matchIndex == n.matchIndex)
    && (n.role == Leader && m.currentTerm == n.currentTerm ==> m.role == Leader)
  }

  ghost predicate IsQuiet(s: State, t: State, v: Id) {
    && v in s.nodes && v in t.nodes && t.nodes == s.nodes[v := t.nodes[v]]
    && SameData(s.nodes[v], t.nodes[v]) && SameOffice(s.nodes[v], t.nodes[v])
    && t.elections.Keys == s.elections.Keys && t.appends == s.appends && t.appendReplies == s.appendReplies
    && t.h == s.h.(grants := t.h.grants) && s.h.grants <= t.h.grants
  }

  lemma QuietEvolves(s: State, t: State, v: Id)
    requires IsQuiet(s, t, v)
    ensures Evolves(s, t)
  {}

  lemma QuietConfig(s: State, t: State, v: Id)
    requires IsQuiet(s, t, v) && Config(s)
    ensures Config(t)
  {}

  lemma QuietLeaderLogs(s: State, t: State)
    requires Evolves(s, t) && LeaderLogs(s)
    requires t.h.leaderLog == s.h.leaderLog && t.h.leaderOf == s.h.leaderOf && t.h.quorum == s.h.quorum
    ensures LeaderLogs(t)
  {
    forall u | u in t.h.leaderLog ensures Grounded(t, t.h.leaderLog[u]) {
      GroundedStays(s, t, s.h.leaderLog[u]);
    }
  }

  lemma QuietNodeLogs(s: State, t: State)
    requires Evolves(s, t) && NodeLogs(s)
    requires forall n :: n in t.nodes ==> t.nodes[n].log == s.nodes[n].log
    ensures NodeLogs(t)
  {
    forall n | n in t.nodes ensures Grounded(t, t.nodes[n].log) {
      GroundedStays(s, t, s.nodes[n].log);
    }
  }

  lemma QuietLeadership(s: State, t: State, v: Id)
    requires IsQuiet(s, t, v) && Leadership(s)
    ensures Leadership(t)
  {
    forall n | n in t.nodes && t.nodes[n].role == Leader
      ensures Acked(t, n, t.nodes[n].currentTerm) == LastIndex(t.nodes[n].log)
    {
      assert Acked(t, n, t.nodes[n].currentTerm) == Acked(s, n, s.nodes[n].currentTerm);
    }
  }

  lemma QuietLedger(s: State, t: State, v: Id)
    requires IsQuiet(s, t, v) && LeaderLogs(s) && NodeLogs(s) && Ledger(s)
    ensures Ledger(t)
  {
    forall n | n in t.nodes && t.nodes[n].currentTerm in t.h.leaderLog
      ensures Agree(t.h.leaderLog[t.nodes[n].currentTerm], t.nodes[n].log, Acked(t, n, t.nodes[n].currentTerm))
    {
      var u := t.nodes[n].currentTerm;
      assert Acked(t, n, u) == Acked(s, n, u);
      assert Grounded(s, s.h.leaderLog[u]) && Grounded(s, s.nodes[n].log);
    }
    forall n, u: nat | n in t.nodes && Acked(t, n, u) > 0
      ensures u <= t.nodes[n].currentTerm && u in t.h.leaderLog && Acked(t, n, u) < |t.h.leaderLog[u]|
    {
      assert Acked(s, n, u) > 0;
    }
  }

  lemma QuietNodesCarry(s: State, t: State)
    requires Evolves(s, t) && Ledger(s) && NodesCarry(s)
    requires forall n :: n in t.nodes ==> t.nodes[n].log == s.nodes[n].log
    requires t.h.acked == s.h.acked
    ensures NodesCarry(t)
  {
    forall n | n in t.nodes ensures Carries(t, n, t.nodes[n].currentTerm, t.nodes[n].log) {
      CarriesPastTerm(s, n);
      CarriesOn(s, t, n, t.nodes[n].currentTerm, s.nodes[n].log);
    }
  }

  /** With the confirmations unchanged, what a log carries it goes on carrying. */
  lemma CarriesOn(s: State, t: State, n: Id, term: nat, log: Entries)
    requires Evolves(s, t) && Ledger(s) && n in s.nodes && t.h.acked == s.h.acked
    requires Carries(s, n, term, log)
    ensures Carries(t, n, term, log)
  {
    forall u: nat, k: nat | u < term && Own(t, u, k) && k <= Acked(t, n, u) ensures Kept(t, u, k, log) {
      OwnWasThere(s, t, n, u, k);
      KeptStays(s, t, u, k, log, log);
    }
  }

  lemma QuietLeadersCarry(s: State, t: State)
    requires Evolves(s, t) && LeadersCarry(s) && t.h.leaderLog == s.h.leaderLog
    ensures LeadersCarry(t)
  {
    forall u: nat, k: nat, w: nat | u < w && w in t.h.leaderLog && Own(t, u, k) ensures Kept(t, u, k, t.h.leaderLog[w]) {
      assert Own(s, u, k);
      KeptStays(s, t, u, k, s.h.leaderLog[w], s.h.leaderLog[w]);
    }
  }

  /** A node that moves on carries also what it confirmed in the term it leaves, and nothing later. */
  lemma CarriesPastTerm(s: State, n: Id)
    requires n in s.nodes && Ledger(s) && NodesCarry(s)
    ensures forall term: nat :: Carries(s, n, term, s.nodes[n].log)
  {
    var log := s.nodes[n].log;
    forall term: nat ensures Carries(s, n, term, log) {
      forall u: nat, k: nat | u < term && Own(s, u, k) && k <= Acked(s, n, u) ensures Kept(s, u, k, log) {
        if u < s.nodes[n].currentTerm {
          assert Carries(s, n, s.nodes[n].currentTerm, log);
        } else {
          assert Acked(s, n, u) > 0;
          assert u == s.nodes[n].currentTerm;
        }
      }
    }
  }

  lemma QuietCommits(s: State, t: State)
    requires Evolves(s, t) && Commits(s)
    requires forall n :: n in t.nodes ==> SameData(s.nodes[n], t.nodes[n])
    ensures Commits(t)
  {
    forall n | n in t.nodes
      ensures Backed(t, t.nodes[n].log, t.nodes[n].commitIndex, t.nodes[n].currentTerm)
    {
      var before, after := s.nodes[n], t.nodes[n];
      BackedStays(s, t, before.log, after.log, before.commitIndex, before.currentTerm, after.currentTerm);
    }
  }

  lemma QuietMessages(s: State, t: State)
    requires Evolves(s, t) && Appends(s) && AppendReplies(s)
    requires t.appends == s.appends && t.appendReplies == s.appendReplies
    ensures Appends(t) && AppendReplies(t)
  {
    forall m | m in t.appends ensures AppendOK(t, m) { AppendStays(s, t, m); }
    forall r | r in t.appendReplies ensures ReplyOK(t, r) { ReplyStays(s, t, r); }
  }

  lemma QuietBooks(s: State, t: State, v: Id)
    requires IsQuiet(s, t, v) && Books(s)
    ensures Books(t)
  {
    forall n | n in t.nodes && t.nodes[n].role == Leader ensures BookOK(t, t.nodes[n]) {
      assert BookOK(s, s.nodes[n]);
      assert forall p :: Acked(t, p, t.nodes[n].currentTerm) == Acked(s, p, s.nodes[n].currentTerm);
    }
  }

  lemma QuietEmission(s: State, t: State)
    requires Emission(s) && t.nodes.Keys == s.nodes.Keys && t.h.emitted == s.h.emitted
    requires forall n :: n in t.nodes ==> SameData(s.nodes[n], t.nodes[n])
    ensures Emission(t)
  {}

  lemma QuietKeepsData(s: State, t: State, v: Id)
    requires IsQuiet(s, t, v) && DataInv(s)
    ensures DataInv(t) && Evolves(s, t)
  {
    hide Config, LeaderLogs, NodeLogs, Leadership, Ledger, NodesCarry, LeadersCarry, Commits, Appends, AppendReplies,
      Books, Emission, Evolves;
    QuietEvolves(s, t, v);
    QuietConfig(s, t, v);
    QuietLeaderLogs(s, t);
    QuietNodeLogs(s, t);
    QuietLeadership(s, t, v);
    QuietLedger(s, t, v);
    QuietNodesCarry(s, t);
    QuietLeadersCarry(s, t);
    QuietCommits(s, t);
    QuietMessages(s, t);
    QuietBooks(s, t, v);
    QuietEmission(s, t);
  }

  /** Candidates that stay candidates of the same term still carry what their voters confirmed. */
  lemma QuietCandidates(s: State, t: State)
    requires Evolves(s, t) && Ledger(s) && CandidatesCarry(s) && t.h.grants == s.h.grants && t.h.acked == s.h.acked
    requires forall g :: g in s.h.grants ==> g.voter in s.nodes
    requires forall c :: c in t.nodes && t.nodes[c].role == Candidate ==>
               s.nodes[c].role == Candidate && s.nodes[c].currentTerm == t.nodes[c].currentTerm
               && s.nodes[c].log == t.nodes[c].log
    ensures CandidatesCarry(t)
  {
    forall g | g in t.h.grants ensures g.candidate in t.nodes && CandidateCarries(t, g) {
      assert CandidateCarries(s, g);
      if t.nodes[g.candidate].role == Candidate && t.nodes[g.candidate].currentTerm == g.term {
        CarriesOn(s, t, g.voter, g.term, s.nodes[g.candidate].log);
      }
    }
  }
}
