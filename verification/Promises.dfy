/** Smaller promises of the documentation, and that the history kept by the model is inert. */
module Promises {
  import opened Types
  import opened Logs
  import opened NodeState
  import opened Cluster
  import opened Runs
  import opened Invariant
  import opened Progress
  import opened Handlers
  import opened Delivery
  import opened Safety
  import opened Guarantees

  // ----- leader hints -----

  /** Where a node's idea of the leader may come from in one step. */
  ghost predicate HintFrom(n: Node, m: Node, sender: Id, senderTerm: nat) {
    || m.leaderId == NOBODY
    || (m.currentTerm == n.currentTerm && m.leaderId == n.leaderId)
    || (m.role == Leader && m.leaderId == m.id)
    || (m.leaderId == sender && m.currentTerm == senderTerm)
  }

  lemma DeliveredHint(n: Node, req: AppendRequest)
    ensures HintFrom(n, HandleAppendEntries(n, req).0, req.leaderId, req.term)
  {}

  lemma AnsweredHint(n: Node, r: AppendReply)
    ensures HintFrom(n, HandleAppendResponse(n, r.msg.to, r.msg.req, r.resp), NOBODY, 0)
  {}

  /** A hint names the winner of the node's term. */
  ghost predicate HintOK(s: State, n: Node) {
    n.leaderId != NOBODY ==> n.currentTerm in s.h.leaderOf && s.h.leaderOf[n.currentTerm] == n.leaderId
  }

  ghost predicate Hints(s: State) {
    forall n :: n in s.nodes ==> HintOK(s, s.nodes[n])
  }

  lemma StepHint(s: State, ev: Event, n: Id)
    requires Enabled(s, ev) && n in s.nodes
    ensures n in Step(s, ev).nodes
    ensures var m := Step(s, ev).nodes[n];
            if ev.DeliverAppend? then HintFrom(s.nodes[n], m, ev.msg.req.leaderId, ev.msg.req.term)
            else HintFrom(s.nodes[n], m, NOBODY, 0)
  {
    match ev
    case DeliverAppend(m) => if n == m.to { DeliveredHint(s.nodes[n], m.req); }
    case AnswerAppend(r) => if n == r.msg.req.leaderId { AnsweredHint(s.nodes[n], r); }
    case _ =>
  }

  lemma NodeHint(s: State, t: State, n: Id, sender: Id, senderTerm: nat)
    requires Config(t) && Leadership(t) && Evolves(s, t) && n in s.nodes && n in t.nodes
    requires HintOK(s, s.nodes[n]) && HintFrom(s.nodes[n], t.nodes[n], sender, senderTerm)
    requires sender != NOBODY ==> senderTerm in s.h.leaderOf && s.h.leaderOf[senderTerm] == sender
    ensures HintOK(t, t.nodes[n])
  {
    hide Settled;
  }

  lemma SenderIsRecorded(s: State, ev: Event)
    requires Appends(s) && Enabled(s, ev) && ev.DeliverAppend?
    ensures ev.msg.req.term in s.h.leaderOf && s.h.leaderOf[ev.msg.req.term] == ev.msg.req.leaderId
  {
    hide Backed;
    assert AppendOK(s, ev.msg);
  }

  lemma ConfigAndLeadership(s: State)
    requires Inv(s)
    ensures Config(s) && Leadership(s) && Appends(s) && NodeLogs(s)
  {
    hide Config, LeaderLogs, NodeLogs, Leadership, Ledger, NodesCarry, LeadersCarry, Commits, Appends, AppendReplies,
      Books, Emission, VoteInv;
  }

  lemma StepKeepsHints(s: State, ev: Event)
    requires Inv(s) && Enabled(s, ev) && Hints(s)
    ensures Hints(Step(s, ev))
  {
    hide Inv, Evolves, Config, Leadership, Appends, NodeLogs, Step, HintOK, HintFrom;
    var t := Step(s, ev);
    StepKeepsInv(s, ev);
    ConfigAndLeadership(s);
    ConfigAndLeadership(t);
    if ev.DeliverAppend? { SenderIsRecorded(s, ev); }
    SameNodes(s, t);
    forall n | n in t.nodes ensures HintOK(t, t.nodes[n]) {
      StepHint(s, ev, n);
      if ev.DeliverAppend? {
        NodeHint(s, t, n, ev.msg.req.leaderId, ev.msg.req.term);
      } else {
        NodeHint(s, t, n, NOBODY, 0);
      }
    }
  }

  lemma SameNodes(s: State, t: State)
    requires Evolves(s, t)
    ensures t.nodes.Keys == s.nodes.Keys
  {}

  lemma {:induction false} RunKeepsHints(s: State, events: seq<Event>, t: State)
    requires Inv(s) && Hints(s) && Run(s, events, t)
    ensures Hints(t)
    decreases |events|
  {
    hide Inv, Hints, Step, Enabled, Run, Evolves;
    if events == [] {
      NoEvents(s, t);
    } else {
      FirstEvent(s, events, t);
      StepKeepsInv(s, events[0]);
      StepKeepsHints(s, events[0]);
      RunKeepsHints(Step(s, events[0]), events[1..], t);
    }
  }

  /** Nodes of one term that name a leader name the same one, and it is the node that leads the term, if any does. */
  lemma LeaderHintsAgree(s: State, a: Id, b: Id)
    requires Reachable(s) && a in s.nodes && b in s.nodes && s.nodes[a].currentTerm == s.nodes[b].currentTerm
    ensures s.nodes[a].leaderId != NOBODY && s.nodes[b].leaderId != NOBODY ==> s.nodes[a].leaderId == s.nodes[b].leaderId
    ensures s.nodes[a].leaderId != NOBODY && s.nodes[b].role == Leader ==> s.nodes[a].leaderId == b
  {
    hide Inv, Config, NodeLogs, Appends, Run;
    var start, events :| Initial(start) && Run(start, events, s);
    StartInv(start);
    assert Hints(start);
    RunKeepsHints(start, events, s);
    RunKeepsInv(start, events, s);
    ConfigAndLeadership(s);
    assert HintOK(s, s.nodes[a]) && HintOK(s, s.nodes[b]);
  }

  /** Whoever hears from a leader of its term or a later one knows that leader from then on and follows it. */
  lemma LeaderIsLearned(s: State, m: AppendMsg)
    requires Reachable(s) && Enabled(s, DeliverAppend(m)) && s.nodes[m.to].currentTerm <= m.req.term
    ensures var n := Step(s, DeliverAppend(m)).nodes[m.to];
            && n.leaderId == m.req.leaderId && n.currentTerm == m.req.term && n.role == Follower
            && m.req.term in s.h.leaderOf && s.h.leaderOf[m.req.term] == n.leaderId
  {
    hide Inv, Reachable, HandleAppendEntries, Config, Leadership, NodeLogs, Appends;
    ReachableInv(s);
    ConfigAndLeadership(s);
    SenderIsRecorded(s, DeliverAppend(m));
    NoPanic(s, m);
    LeaderAccepted(s.nodes[m.to], m.req);
  }

  // ----- who wins -----

  /**
   * An election makes a leader exactly when its candidate is still one in the election's term and voters that
   * are more than half of the cluster have granted it their votes; otherwise the node stays as it is.
   */
  lemma ElectedIff(s: State, c: Id)
    requires Reachable(s) && Enabled(s, CloseElection(c))
    ensures var e, n, m := s.elections[c].value, s.nodes[c], Step(s, CloseElection(c)).nodes[c];
            && e.voters <= s.nodes.Keys && (forall v :: v in e.voters ==> Grant(v, e.req.term, c) in s.h.grants)
            && if n.role == Candidate && n.currentTerm == e.req.term && 2 * |e.voters| > |s.nodes|
               then m.role == Leader && m.leaderId == c && m.currentTerm == n.currentTerm && m.log == n.log
               else m == n
  {
    hide Reachable, FinishElection;
    var e, n := s.elections[c].value, s.nodes[c];
    BallotHolds(s, c);
    Configured(s, c);
    LeadsIff(n, e.req.term, e.votes);
  }

  /** The counter of an election counts distinct voters, and each has granted its vote. */
  lemma BallotHolds(s: State, c: Id)
    requires Reachable(s) && c in s.elections && s.elections[c].Some?
    ensures var e := s.elections[c].value;
            && e.votes == |e.voters| && e.voters <= s.nodes.Keys
            && forall v :: v in e.voters ==> Grant(v, e.req.term, c) in s.h.grants
  {
    hide DataInv, Voting, VoteRequests, CandidatesCarry, Reachable;
    ReachableInv(s);
    assert ElectionOK(s, c, s.elections[c].value);
  }

  // ----- every entry was drawn -----

  function StrokesOf(events: seq<Event>): set<Stroke> {
    if events == [] then {}
    else (match events[0] case Draw(_, stroke) => {stroke} case _ => {}) + StrokesOf(events[1..])
  }

  ghost predicate Sourced(s: State, strokes: set<Stroke>) {
    forall t, i :: t in s.h.leaderLog && 1 <= i < |s.h.leaderLog[t]| ==> s.h.leaderLog[t][i].stroke in strokes
  }

  /** Any grounded log has its strokes from the leaders' logs. */
  lemma GroundedIsSourced(s: State, log: Entries, strokes: set<Stroke>)
    requires Grounded(s, log) && Sourced(s, strokes)
    ensures forall i :: 1 <= i < |log| ==> log[i].stroke in strokes
  {
    forall i: nat | 1 <= i < |log| ensures log[i].stroke in strokes {
      assert Agree(log, s.h.leaderLog[log[i].term], i);
    }
  }

  /** Leader logs change in two ways: a winner's log is recorded, or a leader takes a stroke. */
  lemma LeaderLogChanges(s: State, ev: Event)
    requires Enabled(s, ev)
    ensures var t := Step(s, ev);
            || t.h.leaderLog == s.h.leaderLog
            || (ev.CloseElection? && ev.candidate in s.nodes
                && t.h.leaderLog == s.h.leaderLog[s.nodes[ev.candidate].currentTerm := s.nodes[ev.candidate].log])
            || (ev.Draw? && ev.node in s.nodes && s.nodes[ev.node].role == Leader
                && t.h.leaderLog == s.h.leaderLog[s.nodes[ev.node].currentTerm :=
                     s.nodes[ev.node].log + [Entry(|s.nodes[ev.node].log|, s.nodes[ev.node].currentTerm, ev.stroke)]])
  {}

  lemma StepKeepsSources(s: State, ev: Event, strokes: set<Stroke>)
    requires Inv(s) && Enabled(s, ev) && Sourced(s, strokes)
    ensures Sourced(Step(s, ev), strokes + StrokesOf([ev]))
  {
    hide Inv, Config, Leadership, Appends, Step, Grounded;
    ConfigAndLeadership(s);
    LeaderLogChanges(s, ev);
    assert [ev][1..] == [];
    if ev.CloseElection? && ev.candidate in s.nodes {
      GroundedIsSourced(s, s.nodes[ev.candidate].log, strokes);
    }
    if ev.Draw? {
      GroundedIsSourced(s, s.nodes[ev.node].log, strokes);
    }
  }

  lemma {:induction false} RunKeepsSources(s: State, events: seq<Event>, t: State, strokes: set<Stroke>)
    requires Inv(s) && Sourced(s, strokes) && Run(s, events, t)
    ensures Sourced(t, strokes + StrokesOf(events))
    decreases |events|
  {
    hide Inv, Step, Enabled, Run, Evolves;
    if events == [] {
      NoEvents(s, t);
      assert strokes + {} == strokes;
    } else {
      FirstEvent(s, events, t);
      StepKeepsInv(s, events[0]);
      StepKeepsSources(s, events[0], strokes);
      assert [events[0]][1..] == [];
      RunKeepsSources(Step(s, events[0]), events[1..], t, strokes + StrokesOf([events[0]]));
      assert strokes + StrokesOf([events[0]]) + StrokesOf(events[1..]) == strokes + StrokesOf(events);
    }
  }

  /** Nothing is invented: every entry of every log carries a stroke that was handed to some node in the run. */
  lemma NothingInvented(config: map<Id, seq<Id>>, events: seq<Event>, s: State, n: Id, i: nat)
    requires ValidConfig(config) && Run(Init(config), events, s) && n in s.nodes && 1 <= i < |s.nodes[n].log|
    ensures s.nodes[n].log[i].stroke in StrokesOf(events)
  {
    hide Inv, Run, Config, Leadership, Appends, Grounded, Evolves;
    InitInv(config);
    assert Sourced(Init(config), {});
    RunKeepsSources(Init(config), events, s, {});
    RunKeepsInv(Init(config), events, s);
    ConfigAndLeadership(s);
    GroundedIsSourced(s, s.nodes[n].log, {} + StrokesOf(events));
  }

  // ----- terms -----

  /** What a node is after seeing a term: never behind it, and a voteless follower or voter when it was behind. */
  ghost predicate Superseded(n: Node, m: Node, term: nat) {
    && n.currentTerm <= m.currentTerm
    && (term > n.currentTerm ==> m.currentTerm == term && m.role == Follower)
  }

  /** A higher term always supersedes: in both kinds of request and in both kinds of answer. */
  lemma HigherTermSupersedes(n: Node, vote: VoteRequest, voteResp: VoteResponse, append: AppendRequest,
                             peer: Id, resp: AppendResponse, term: nat)
    ensures Superseded(n, HandleVoteRequest(n, vote).0, vote.term)
            && vote.term <= HandleVoteRequest(n, vote).0.currentTerm
    ensures Superseded(n, HandleAppendEntries(n, append).0, append.term)
            && append.term <= HandleAppendEntries(n, append).0.currentTerm
    ensures Superseded(n, HandleVoteResponse(n, term, voteResp).0, voteResp.term)
    ensures Superseded(n, HandleAppendResponse(n, peer, append, resp), resp.term)
  {}

  // ----- the leader's books -----

  /**
   * A success records for that peer, and for no other, exactly where its request ended in the leader's
   * log, whatever older or newer answers had recorded; a heartbeat that carried nothing records nothing.
   */
  lemma SuccessIsBooked(s: State, r: AppendReply)
    requires Reachable(s) && Enabled(s, AnswerAppend(r)) && r.resp.success
    requires var n := s.nodes[r.msg.req.leaderId];
             n.role == Leader && n.currentTerm == r.msg.req.term && r.resp.term <= n.currentTerm
    ensures var l := r.msg.req.leaderId;
            var n, m := s.nodes[l], Step(s, AnswerAppend(r)).nodes[l];
            if r.msg.req.entries == [] then m.nextIndex == n.nextIndex && m.matchIndex == n.matchIndex
            else m.nextIndex == n.nextIndex[r.msg.to := EndOf(r.msg.req) + 1]
                 && m.matchIndex == n.matchIndex[r.msg.to := EndOf(r.msg.req)]
  {
    hide Reachable, Config, NodeLogs, Leadership, Ledger, NodesCarry, LeadersCarry, Commits, Appends, Books, Emission,
      VoteInv, ReplyOK;
    ReachableInv(s);
    assert ReplyOK(s, r);
    hide LeaderLogs;
    if r.msg.req.entries != [] { BatchEnd(s, r); }
  }

  // ----- history -----

  /** The recorded history decides nothing: with any other history the same events are enabled and do the same. */
  lemma HistoryIsInert(s: State, g: History, ev: Event)
    requires g.emitted.Keys == s.h.emitted.Keys
    ensures Enabled(s.(h := g), ev) <==> Enabled(s, ev)
    ensures Enabled(s, ev) ==> Step(s.(h := g), ev).(h := g) == Step(s, ev).(h := g)
  {}
}
