/**
 * No reachable state is a dead end: whatever has happened to a cluster of at least two nodes, there is a way
 * on that elects a leader, has it take any given stroke and ends with every node having the same log, all of
 * it committed and handed to the channel.
 */
module Recovery {
  import opened Types
  import opened Logs
  import opened NodeState
  import opened Cluster
  import opened Runs
  import opened Invariant
  import opened Progress
  import opened Quorums
  import opened Safety
  import opened Guarantees
  import opened Handlers
  import opened Promises
  import opened CatchUp

  // ----- ways on -----

  /** Some events lead from s to t. */
  ghost predicate Leads(s: State, t: State) {
    exists events :: Run(s, events, t)
  }

  lemma LeadsNowhere(s: State)
    ensures Leads(s, s)
  {
    hide Run;
    NoEvents(s, s);
  }

  lemma LeadsFurther(s: State, t: State, u: State)
    requires Leads(s, t) && Leads(t, u)
    ensures Leads(s, u)
  {
    hide Run;
    var first :| Run(s, first, t);
    var second :| Run(t, second, u);
    RunsJoin(s, first, t, second, u);
  }

  /** One more event. */
  lemma LeadsStep(s: State, t: State, ev: Event)
    requires Reachable(t) && Leads(s, t) && Enabled(t, ev)
    ensures Leads(s, Step(t, ev)) && Reachable(Step(t, ev))
  {
    hide Run, Reachable, Step, Enabled;
    Reach(t, ev);
    OneStep(t, ev);
    LeadsFurther(s, t, Step(t, ev));
  }

  lemma {:induction false} ExchangesLead(s: State, l: Id, p: Id, rounds: nat, t: State)
    requires Exchanges(s, l, p, rounds, t)
    ensures Leads(s, t)
    decreases rounds
  {
    hide Run, Leads;
    if rounds == 0 {
      LeadsNowhere(s);
    } else {
      var reply, u :| Exchanged(s, l, p, reply, u) && Exchanges(u, l, p, rounds - 1, t);
      ExchangesLead(u, l, p, rounds - 1, t);
      ExchangeLeads(s, l, p, reply, u);
      LeadsFurther(s, u, t);
    }
  }

  lemma ExchangeLeads(s: State, l: Id, p: Id, reply: AppendReply, t: State)
    requires Exchanged(s, l, p, reply, t)
    ensures Leads(s, t)
  {
    hide Run;
  }

  // ----- one node on its own -----

  /** Only node c is touched, and its log is not. */
  ghost predicate Alone(s: State, c: Id, t: State) {
    && c in s.nodes && c in t.nodes && t.nodes == s.nodes[c := t.nodes[c]] && t.nodes[c].log == s.nodes[c].log
  }

  /** An election under way can be brought to its end with the votes it has. */
  lemma {:induction false} EndItsElection(s: State, c: Id) returns (t: State)
    requires Reachable(s) && c in s.nodes && c in s.elections && s.elections[c].Some?
    ensures Leads(s, t) && Reachable(t) && c in t.elections && t.elections[c].None?
    ensures var e := s.elections[c].value;
            t.nodes == s.nodes[c := FinishElection(s.nodes[c], e.req.term, e.votes + |e.checked|)]
    decreases |s.elections[c].value.waiting| + 2 * |s.elections[c].value.checked|
  {
    hide Leads, Reachable, FinishElection;
    var e := s.elections[c].value;
    LeadsNowhere(s);
    if p :| p in e.waiting {
      LeadsStep(s, s, LoseVote(c, p));
      t := EndItsElection(Step(s, LoseVote(c, p)), c);
      LeadsFurther(s, Step(s, LoseVote(c, p)), t);
    } else if p :| p in e.checked {
      LeadsStep(s, s, CountVote(c, p));
      t := EndItsElection(Step(s, CountVote(c, p)), c);
      LeadsFurther(s, Step(s, CountVote(c, p)), t);
    } else {
      LeadsStep(s, s, CloseElection(c));
      t := Step(s, CloseElection(c));
    }
  }

  /** A node that is neither leading nor electing and can raise its term at will. */
  ghost predicate Idle(s: State, c: Id) {
    Reachable(s) && c in s.nodes && c in s.elections && s.elections[c].None? && s.nodes[c].role != Leader
  }

  /** Standing for election without hearing from anybody raises the term by one. */
  lemma {:induction false} RaiseTerm(s: State, c: Id, k: nat) returns (t: State)
    requires Idle(s, c) && |s.nodes| >= 2
    ensures Leads(s, t) && Idle(t, c) && Alone(s, c, t) && t.nodes[c].currentTerm == s.nodes[c].currentTerm + k
    decreases k
  {
    hide Leads, Reachable, FinishElection;
    LeadsNowhere(s);
    t := s;
    if k > 0 {
      Configured(s, c);
      LeadsStep(s, s, Timeout(c));
      var stood := Step(s, Timeout(c));
      var lost := EndItsElection(stood, c);
      LeadsIff(stood.nodes[c], stood.nodes[c].currentTerm, 1);
      LeadsFurther(s, stood, lost);
      assert lost.nodes[c] == stood.nodes[c];
      t := RaiseTerm(lost, c, k - 1);
      LeadsFurther(s, lost, t);
    }
  }

  /** A leader that hears of a higher term is none any more. */
  lemma Depose(s: State, l: Id, p: Id) returns (t: State)
    requires Reachable(s) && l in s.nodes && p in s.nodes && s.nodes[l].role == Leader
    requires s.nodes[p].currentTerm > s.nodes[l].currentTerm
    ensures Leads(s, t) && Reachable(t) && Alone(s, l, t) && t.nodes[l].role != Leader && t.elections == s.elections
  {
    hide Leads, Reachable, HandleAppendEntries, HandleAppendResponse;
    Configured(s, l);
    NextStays(s, l, p);
    LeadsNowhere(s);
    LeadsStep(s, s, Send(l, p));
    var sent := Step(s, Send(l, p));
    var m := AppendMsg(AppendRequestFor(s.nodes[l], p).value, p);
    LeaderAccepted(sent.nodes[p], m.req);
    LeadsStep(s, sent, DeliverAppend(m));
    var answered := Step(sent, DeliverAppend(m));
    var r := AppendReply(m, AppendResponse(s.nodes[p].currentTerm, false, 0));
    assert answered.nodes == s.nodes && r in answered.appendReplies;
    RefusalTaken(answered.nodes[l], p, m.req, r.resp);
    LeadsStep(s, answered, AnswerAppend(r));
    t := Step(answered, AnswerAppend(r));
  }

  // ----- electing a leader -----

  lemma {:induction false} HighestTerm(s: State, ids: set<Id>) returns (term: nat)
    requires ids <= s.nodes.Keys
    ensures forall q :: q in ids ==> s.nodes[q].currentTerm <= term
  {
    term := 0;
    if q :| q in ids {
      var rest := HighestTerm(s, ids - {q});
      term := if rest < s.nodes[q].currentTerm then s.nodes[q].currentTerm else rest;
    }
  }

  /** Nobody's log is ahead of c's. */
  ghost predicate Foremost(s: State, c: Id, ids: set<Id>) {
    c in s.nodes && forall q :: q in ids && q in s.nodes ==> UpToDate(RequestFor(s.nodes[c]), s.nodes[q].log)
  }

  /** Some node's log is at least as far as everybody's. */
  lemma {:induction false} SomeoneIsForemost(s: State, ids: set<Id>) returns (c: Id)
    requires ids != {} && ids <= s.nodes.Keys
    ensures c in ids && Foremost(s, c, ids)
    decreases |ids|
  {
    var a :| a in ids;
    c := a;
    var others := ids - {a};
    if others != {} {
      var d := SomeoneIsForemost(s, others);
      if !UpToDate(RequestFor(s.nodes[a]), s.nodes[d].log) {
        c := d;
      }
      forall q | q in ids ensures UpToDate(RequestFor(s.nodes[c]), s.nodes[q].log) {
        if q != a { AsFarAs(s.nodes[a], s.nodes[d], s.nodes[q]); }
      }
    } else {
      assert ids == others + {a};
    }
  }

  lemma AsFarAs(a: Node, b: Node, c: Node)
    ensures UpToDate(RequestFor(a), b.log) && UpToDate(RequestFor(b), c.log) ==> UpToDate(RequestFor(a), c.log)
  {}

  /** An election that waits only for voters that will say yes, and has the votes of everyone else. */
  ghost predicate Collecting(s: State, c: Id, waiting: set<Id>) {
    && Reachable(s) && c in s.nodes && c in s.elections && s.elections[c].Some? && s.nodes[c].role == Candidate
    && var n, e := s.nodes[c], s.elections[c].value;
       && e.req == RequestFor(n) && e.req in s.voteRequests && e.waiting == waiting && e.checked == {}
       && c !in waiting && waiting <= s.nodes.Keys && e.voters + waiting == s.nodes.Keys
       && (forall q :: q in s.nodes ==> s.nodes[q].currentTerm <= n.currentTerm)
       && (forall q :: q in waiting ==>
             s.nodes[q].currentTerm < n.currentTerm && UpToDate(e.req, s.nodes[q].log))
  }

  /** The voter says yes. */
  lemma AskVoter(s: State, c: Id, waiting: set<Id>, q: Id) returns (t: State, r: VoteReply)
    requires Collecting(s, c, waiting) && q in waiting
    ensures Leads(s, t) && Reachable(t) && r in t.voteReplies
    ensures r == VoteReply(s.elections[c].value.req, q, VoteResponse(s.nodes[c].currentTerm, true))
    ensures t.elections == s.elections && t.voteRequests == s.voteRequests && q in t.nodes
    ensures t.nodes == s.nodes[q := t.nodes[q]] && t.nodes[q].currentTerm == s.nodes[c].currentTerm
  {
    hide Leads, Reachable, HandleVoteRequest;
    var req := s.elections[c].value.req;
    Configured(s, c);
    LeadsNowhere(s);
    VoteGrantedIff(s.nodes[q], req);
    VoteAnswer(s.nodes[q], req);
    LeadsStep(s, s, DeliverVote(q, req));
    t := Step(s, DeliverVote(q, req));
    r := VoteReply(req, q, VoteResponse(req.term, true));
  }

  /** The candidate checks the answer and counts it. */
  lemma CountVoter(s: State, c: Id, r: VoteReply) returns (t: State)
    requires Reachable(s) && c in s.elections && s.elections[c].Some? && c in s.nodes && r in s.voteReplies
    requires s.nodes[c].role == Candidate && r.resp == VoteResponse(s.nodes[c].currentTerm, true)
    requires var e := s.elections[c].value;
             r.req == e.req && e.req.term == s.nodes[c].currentTerm && r.voter in e.waiting && e.checked == {}
    ensures Leads(s, t) && Reachable(t) && t.nodes == s.nodes && t.voteRequests == s.voteRequests
    ensures var e := s.elections[c].value;
            t.elections == s.elections[c := Some(
              e.(waiting := e.waiting - {r.voter}, votes := e.votes + 1, voters := e.voters + {r.voter}))]
  {
    hide Leads, Reachable, HandleVoteResponse;
    LeadsNowhere(s);
    VoteCountsIff(s.nodes[c], r.req.term, r.resp);
    LeadsStep(s, s, AnswerVote(c, r));
    var u := Step(s, AnswerVote(c, r));
    assert u.nodes == s.nodes && u.elections[c].value.checked == {r.voter};
    LeadsStep(s, u, CountVote(c, r.voter));
    t := Step(u, CountVote(c, r.voter));
    assert {r.voter} - {r.voter} == {};
  }

  /** One voter is asked, answers, and its answer is checked and counted. */
  lemma CollectVote(s: State, c: Id, waiting: set<Id>, q: Id) returns (t: State)
    requires Collecting(s, c, waiting) && q in waiting
    ensures Leads(s, t) && Collecting(t, c, waiting - {q}) && t.nodes.Keys == s.nodes.Keys
  {
    hide Leads, Reachable, UpToDate;
    var u, r := AskVoter(s, c, waiting, q);
    assert u.nodes[c] == s.nodes[c];
    t := CountVoter(u, c, r);
    LeadsFurther(s, u, t);
  }

  lemma {:induction false} CollectVotes(s: State, c: Id, waiting: set<Id>) returns (t: State)
    requires Collecting(s, c, waiting)
    ensures Leads(s, t) && Collecting(t, c, {}) && t.nodes.Keys == s.nodes.Keys
    decreases |waiting|
  {
    hide Leads, Collecting;
    LeadsNowhere(s);
    t := s;
    if q :| q in waiting {
      var u := CollectVote(s, c, waiting, q);
      t := CollectVotes(u, c, waiting - {q});
      LeadsFurther(s, u, t);
    }
  }

  /** A leader that nobody's term is ahead of. */
  ghost predicate Leading(s: State, l: Id) {
    && Reachable(s) && l in s.nodes && s.nodes[l].role == Leader
    && forall q :: q in s.nodes ==> s.nodes[q].currentTerm <= s.nodes[l].currentTerm
  }

  /** With all votes in, the candidate leads. */
  lemma AllVotesWin(s: State, c: Id) returns (t: State)
    requires Collecting(s, c, {})
    ensures Leads(s, t) && Leading(t, c) && t.nodes.Keys == s.nodes.Keys
  {
    hide Leads, Reachable, FinishElection, UpToDate;
    var e := s.elections[c].value;
    assert e.voters == s.nodes.Keys;
    BallotHolds(s, c);
    Configured(s, c);
    LeadsIff(s.nodes[c], e.req.term, e.votes);
    t := EndItsElection(s, c);
  }

  /** A node with a foremost log, not leading and not electing, can win the next term. */
  lemma StandAndWin(s: State, c: Id) returns (t: State)
    requires Idle(s, c) && Foremost(s, c, s.nodes.Keys) && |s.nodes| >= 2
    ensures Leads(s, t) && Leading(t, c) && t.nodes.Keys == s.nodes.Keys
  {
    hide Leads, Reachable, UpToDate;
    var term := HighestTerm(s, s.nodes.Keys);
    var u := RaiseTerm(s, c, term - s.nodes[c].currentTerm);
    Configured(u, c);
    LeadsStep(s, u, Timeout(c));
    var stood := Step(u, Timeout(c));
    SameEnd(s.nodes[c], stood.nodes[c]);
    assert stood.elections[c].value.waiting == s.nodes.Keys - {c};
    assert Collecting(stood, c, s.nodes.Keys - {c});
    var voted := CollectVotes(stood, c, s.nodes.Keys - {c});
    t := AllVotesWin(voted, c);
    LeadsFurther(s, stood, voted);
    LeadsFurther(s, voted, t);
  }

  /** Whether a request passes the check depends on the end of the log alone. */
  lemma SameEnd(n: Node, m: Node)
    requires n.log == m.log
    ensures forall log: Entries :: UpToDate(RequestFor(n), log) <==> UpToDate(RequestFor(m), log)
  {}

  /** A node can be brought to lead with nobody ahead of it, or to neither lead nor elect. */
  lemma LeadOrIdle(s: State, c: Id) returns (t: State)
    requires Reachable(s) && c in s.nodes
    ensures Leads(s, t) && Alone(s, c, t) && (Leading(t, c) || Idle(t, c))
  {
    hide Leads, Reachable, FinishElection;
    Configured(s, c);
    LeadsNowhere(s);
    t := s;
    if s.elections[c].Some? {
      var e := s.elections[c].value;
      t := EndItsElection(s, c);
      LeadsIff(s.nodes[c], e.req.term, e.votes + |e.checked|);
    }
    if t.nodes[c].role == Leader {
      if q :| q in t.nodes && t.nodes[q].currentTerm > t.nodes[c].currentTerm {
        var u := Depose(t, c, q);
        LeadsFurther(s, t, u);
        t := u;
      }
    }
  }

  lemma StaysForemost(s: State, c: Id, t: State)
    requires Foremost(s, c, s.nodes.Keys) && Alone(s, c, t)
    ensures Foremost(t, c, t.nodes.Keys) && t.nodes.Keys == s.nodes.Keys
  {
    SameEnd(s.nodes[c], t.nodes[c]);
    hide UpToDate;
  }

  /** From every reachable state somebody can come to lead with nobody's term ahead. */
  lemma ElectSomeone(s: State) returns (t: State, l: Id)
    requires Reachable(s) && |s.nodes| >= 2
    ensures Leads(s, t) && Leading(t, l) && t.nodes.Keys == s.nodes.Keys
  {
    hide Leads, Reachable, Foremost;
    l := SomeoneIsForemost(s, s.nodes.Keys);
    t := LeadOrIdle(s, l);
    StaysForemost(s, l, t);
    if !Leading(t, l) {
      assert |t.nodes.Keys| == |s.nodes.Keys|;
      var u := StandAndWin(t, l);
      LeadsFurther(s, t, u);
      t := u;
    }
  }

  // ----- serving everybody -----

  /** l leads, its last entry is of its term, and every peer outside `rest` is served up to c and counted. */
  ghost predicate Serving(s: State, l: Id, rest: set<Id>, c: nat) {
    && Leading(s, l) && c <= s.nodes[l].commitIndex && LastTerm(s.nodes[l].log) == s.nodes[l].currentTerm
    && forall p :: p in s.nodes && p != l ==>
         Pending(s.nodes[l], p) && (p !in rest ==> Served(s, l, p, c) && Counted(s.nodes[l], p))
  }

  /** What a leader and one peer do leaves everything it has reached with the others. */
  lemma AsideKeeps(s: State, l: Id, p: Id, t: State)
    requires Leading(s, l) && Aside(s, l, p, t) && Paired(t, l, p) && p in s.nodes && p != l
    ensures Leading(t, l) && t.nodes.Keys == s.nodes.Keys && s.nodes[l].commitIndex <= t.nodes[l].commitIndex
    ensures t.nodes[l].log == s.nodes[l].log && t.nodes[l].currentTerm == s.nodes[l].currentTerm
    ensures t.nodes[l].peers == s.nodes[l].peers
    ensures forall q :: q in s.nodes && q != l && q != p ==>
              && (Pending(s.nodes[l], q) ==> Pending(t.nodes[l], q))
              && (Counted(s.nodes[l], q) ==> Counted(t.nodes[l], q))
              && forall c: nat :: Served(s, l, q, c) ==> Served(t, l, q, c)
  {
    hide Reachable, Agree;
  }

  lemma ServeOne(s: State, l: Id, rest: set<Id>, c: nat, p: Id) returns (t: State)
    requires Serving(s, l, rest, c) && p in rest && p in s.nodes && p != l
    ensures Leads(s, t) && Serving(t, l, rest - {p}, c) && t.nodes.Keys == s.nodes.Keys
    ensures t.nodes[l].log == s.nodes[l].log
  {
    hide Leads, Reachable, Exchanges, Agree, Aside, CaughtUp, Counted;
    Configured(s, l);
    NextStays(s, l, p);
    t := CanExchangeOn(s, l, p, s.nodes[l].nextIndex[p]);
    CatchesUp(s, l, p, s.nodes[l].nextIndex[p], t);
    ExchangesLead(s, l, p, s.nodes[l].nextIndex[p], t);
    AsideKeeps(s, l, p, t);
    assert Pending(t.nodes[l], p);
    hide Pending, Served;
  }

  lemma {:induction false} ServeAll(s: State, l: Id, rest: set<Id>, c: nat) returns (t: State)
    requires Serving(s, l, rest, c) && rest <= s.nodes.Keys - {l}
    ensures Leads(s, t) && Serving(t, l, {}, c) && t.nodes.Keys == s.nodes.Keys
    ensures t.nodes[l].log == s.nodes[l].log
    decreases |rest|
  {
    hide Leads, Serving;
    LeadsNowhere(s);
    t := s;
    if p :| p in rest {
      var u := ServeOne(s, l, rest, c, p);
      ServingLeads(s, l, rest, c);
      t := ServeAll(u, l, rest - {p}, c);
      LeadsFurther(s, u, t);
    } else {
      assert rest == {};
    }
  }

  lemma ServingLeads(s: State, l: Id, rest: set<Id>, c: nat)
    requires Serving(s, l, rest, c)
    ensures l in s.nodes
  {}

  /** A stroke gives the leader something to send to everyone. */
  lemma DrawOne(s: State, l: Id, stroke: Stroke) returns (t: State)
    requires Leading(s, l)
    ensures Leads(s, t) && Serving(t, l, t.nodes.Keys - {l}, 0) && t.nodes.Keys == s.nodes.Keys
    ensures t.nodes[l].log == s.nodes[l].log + [Entry(|s.nodes[l].log|, s.nodes[l].currentTerm, stroke)]
  {
    hide Leads, Reachable, HandleStroke, Agree;
    Configured(s, l);
    LeadsNowhere(s);
    StrokeTaken(s.nodes[l], stroke);
    LeadsStep(s, s, Draw(l, stroke));
    t := Step(s, Draw(l, stroke));
    forall p | p in t.nodes && p != l ensures Pending(t.nodes[l], p) {
      MatchIndexSound(s, l, p);
    }
  }

  /** When all count, everything in the log may be committed. */
  lemma {:induction false} AllHold(peers: seq<Id>, matchIndex: map<Id, nat>, index: nat)
    requires forall p :: p in peers ==> p in matchIndex && matchIndex[p] >= index
    ensures CountHolding(peers, matchIndex, index) == |peers|
    decreases |peers|
  {
    if peers != [] { AllHold(peers[1..], matchIndex, index); }
  }

  lemma AllCounted(n: Node)
    requires n.role == Leader && LastTerm(n.log) == n.currentTerm && forall q :: q in n.peers ==> Counted(n, q)
    ensures Committable(n, LastIndex(n.log))
  {
    AllHold(n.peers, n.matchIndex, LastIndex(n.log));
    LeastMajority(n);
  }

  /** One more exchange with any peer commits the whole log of a leader that has served everyone. */
  lemma CommitAll(s: State, l: Id, p: Id) returns (t: State)
    requires Serving(s, l, {}, 0) && p in s.nodes && p != l
    ensures Leads(s, t) && Serving(t, l, t.nodes.Keys - {l}, LastIndex(s.nodes[l].log))
    ensures t.nodes.Keys == s.nodes.Keys && t.nodes[l].log == s.nodes[l].log
  {
    hide Leads, Reachable, Exchanged, Agree, Aside, Committable, Counted;
    Configured(s, l);
    NextStays(s, l, p);
    var reply, u := CanExchange(s, l, p);
    OneExchange(s, l, p, reply, u);
    ExchangeLeads(s, l, p, reply, u);
    t := u;
    AsideKeeps(s, l, p, t);
    assert CaughtUp(s, l, p);
    AllCounted(t.nodes[l]);
    hide CaughtUp, Pending, Served;
  }

  // ----- everybody has the same -----

  /** Nobody has anything beyond the log of a leader of their term whose last entry is of that term. */
  lemma NothingBeyond(s: State, l: Id, p: Id)
    requires Reachable(s) && CaughtUp(s, l, p) && s.nodes[l].role == Leader
    requires LastTerm(s.nodes[l].log) == s.nodes[l].currentTerm
    ensures s.nodes[p].log == s.nodes[l].log
  {
    hide Config, Ledger, NodesCarry, LeadersCarry, Commits, Appends, AppendReplies, Books, Emission, VoteInv, Reachable;
    ReachableInv(s);
    LeaderIsRecorded(s, l);
    NodeInvariant(s, p);
    var log, mine := s.nodes[l].log, s.nodes[p].log;
    var last := LastIndex(mine);
    assert mine[last].term == s.nodes[l].currentTerm;
    if last > 0 { assert Agree(mine, s.h.leaderLog[mine[last].term], last); }
  }

  /** Everyone has the log, has committed all of it, knows the leader, and is in its term. */
  ghost predicate Together(s: State, l: Id, log: Entries) {
    && Reachable(s) && l in s.nodes && s.nodes[l].role == Leader
    && forall n :: n in s.nodes ==>
         && s.nodes[n].log == log && s.nodes[n].commitIndex == LastIndex(log)
         && s.nodes[n].currentTerm == s.nodes[l].currentTerm && (n != l ==> s.nodes[n].leaderId == l)
  }

  lemma ServedIsTogether(s: State, l: Id)
    requires l in s.nodes && Serving(s, l, {}, LastIndex(s.nodes[l].log))
    ensures Together(s, l, s.nodes[l].log)
  {
    hide Reachable, Agree;
    forall n | n in s.nodes
      ensures s.nodes[n].log == s.nodes[l].log && s.nodes[n].commitIndex == LastIndex(s.nodes[l].log)
    {
      NodeInvariant(s, n);
      if n != l {
        assert Served(s, l, n, LastIndex(s.nodes[l].log));
        NothingBeyond(s, l, n);
      }
    }
  }

  // ----- everything committed leaves every node -----

  /** A node's applier can run until it has handed over all that is committed. */
  lemma {:induction false} ApplyAt(s: State, n: Id, l: Id, log: Entries) returns (t: State)
    requires Together(s, l, log) && n in s.nodes
    ensures Leads(s, t) && Together(t, l, log) && t.nodes.Keys == s.nodes.Keys
    ensures t.nodes[n].lastApplied == LastIndex(log)
    ensures forall q :: q in s.nodes && q != n ==> t.nodes[q] == s.nodes[q]
    decreases LastIndex(log) - s.nodes[n].lastApplied
  {
    hide Leads, Reachable, Pushed;
    LeadsNowhere(s);
    Configured(s, n);
    NodeInvariant(s, n);
    t := s;
    if s.nodes[n].lastApplied < LastIndex(log) {
      LeadsStep(s, s, Apply(n));
      var u := Step(s, Apply(n));
      t := ApplyAt(u, n, l, log);
      LeadsFurther(s, u, t);
    }
  }

  lemma {:induction false} ApplyEverywhere(s: State, rest: set<Id>, l: Id, log: Entries) returns (t: State)
    requires Together(s, l, log) && rest <= s.nodes.Keys
    requires forall n :: n in s.nodes && n !in rest ==> s.nodes[n].lastApplied == LastIndex(log)
    ensures Leads(s, t) && Together(t, l, log) && t.nodes.Keys == s.nodes.Keys
    ensures forall n :: n in t.nodes ==> t.nodes[n].lastApplied == LastIndex(log)
    decreases |rest|
  {
    hide Leads, Together;
    LeadsNowhere(s);
    t := s;
    if n :| n in rest {
      var u := ApplyAt(s, n, l, log);
      t := ApplyEverywhere(u, rest - {n}, l, log);
      LeadsFurther(s, u, t);
    }
  }

  /** A leader takes the stroke, and the stroke with all before it is committed by everyone. */
  lemma Spread(s: State, l: Id, stroke: Stroke) returns (t: State)
    requires Leading(s, l) && |s.nodes| >= 2
    ensures Leads(s, t) && t.nodes.Keys == s.nodes.Keys
    ensures l in t.nodes && Together(t, l, t.nodes[l].log)
    ensures |t.nodes[l].log| >= 2 && t.nodes[l].log[LastIndex(t.nodes[l].log)].stroke == stroke
  {
    hide Leads, Serving, Together, Leading;
    var drawn := DrawOne(s, l, stroke);
    assert l in s.nodes by { LeadingIsNode(s, l); }
    assert l in drawn.nodes;
    var counted := ServeAll(drawn, l, drawn.nodes.Keys - {l}, 0);
    var p := Other(s.nodes.Keys, l);
    var committed := CommitAll(counted, l, p);
    t := ServeAll(committed, l, committed.nodes.Keys - {l}, LastIndex(counted.nodes[l].log));
    ServedIsTogether(t, l);
    LeadsFurther(s, drawn, counted);
    LeadsFurther(s, counted, committed);
    LeadsFurther(s, committed, t);
  }

  lemma LeadingIsNode(s: State, l: Id)
    requires Leading(s, l)
    ensures l in s.nodes
  {}

  lemma Other(ids: set<Id>, l: Id) returns (p: Id)
    requires |ids| >= 2
    ensures p in ids && p != l
  {
    if ids - {l} == {} {
      SubsetSize(ids, {l});
      assert false;
    }
    p :| p in ids - {l};
  }

  /**
   * Whatever has happened to a cluster of at least two nodes, and whatever stroke is drawn next, there is a
   * run that ends with one leader known to all in one term, the same log everywhere with the stroke as its
   * last entry, all of it committed, and every node having handed over all of it, each entry once and in order.
   */
  lemma AlwaysRecovers(s: State, stroke: Stroke) returns (events: seq<Event>, t: State, l: Id, log: Entries)
    requires Reachable(s) && |s.nodes| >= 2
    ensures Run(s, events, t) && t.nodes.Keys == s.nodes.Keys
    ensures |log| >= 2 && log[LastIndex(log)].stroke == stroke
    ensures l in t.nodes && t.nodes[l].role == Leader
    ensures forall n :: n in t.nodes ==>
              && t.nodes[n].currentTerm == t.nodes[l].currentTerm && (n != l ==> t.nodes[n].leaderId == l)
              && t.nodes[n].log == log && t.nodes[n].commitIndex == t.nodes[n].lastApplied == LastIndex(log)
              && n in t.h.emitted && t.h.emitted[n] == log[1..]
    ensures forall n :: n in s.nodes ==> Agree(s.nodes[n].log, log, s.nodes[n].commitIndex)
  {
    hide Run, Reachable, Leading, Agree;
    var u, leader := ElectSomeone(s);
    var v := Spread(u, leader, stroke);
    l, log := leader, v.nodes[leader].log;
    t := ApplyEverywhere(v, v.nodes.Keys, l, log);
    LeadsFurther(s, u, v);
    LeadsFurther(s, v, t);
    events :| Run(s, events, t);
    forall n | n in t.nodes ensures n in t.h.emitted && t.h.emitted[n] == log[1..] {
      LeadsNowhere(t);
      NoEvents(t, t);
      CommitEmission(t, [], t, n, n);
      assert log[1..LastIndex(log) + 1] == log[1..];
    }
    forall n | n in s.nodes ensures Agree(s.nodes[n].log, log, s.nodes[n].commitIndex) {
      CommittedForever(s, events, t, n);
    }
  }

  // ----- a node without peers -----

  /** Without a second node there is nobody to send to, so nothing is ever answered either. */
  lemma NoMessagesAlone(s: State, ev: Event, n: Id)
    requires Inv(s) && Enabled(s, ev) && s.nodes.Keys == {n}
    ensures !ev.DeliverAppend? && !ev.AnswerAppend?
  {
    hide Config, LeaderLogs, NodeLogs, Leadership, Ledger, NodesCarry, LeadersCarry, Commits, Books, Emission, VoteInv,
      Backed;
  }

  lemma OthersLeaveCommit(s: State, ev: Event, n: Id)
    requires Enabled(s, ev) && !ev.DeliverAppend? && !ev.AnswerAppend? && n in s.nodes
    ensures n in Step(s, ev).nodes && Step(s, ev).nodes[n].commitIndex == s.nodes[n].commitIndex
    ensures Step(s, ev).nodes.Keys == s.nodes.Keys
  {
    hide HandleAppendEntries, HandleAppendResponse, SetAll, UpToDate;
  }

  lemma {:induction false} RunAlone(s: State, events: seq<Event>, t: State, n: Id)
    requires Inv(s) && Run(s, events, t) && s.nodes.Keys == {n}
    ensures t.nodes.Keys == {n} && t.nodes[n].commitIndex == s.nodes[n].commitIndex
    decreases |events|
  {
    hide Inv, Step, Enabled, Run;
    if events == [] {
      NoEvents(s, t);
    } else {
      FirstEvent(s, events, t);
      StepKeepsInv(s, events[0]);
      NoMessagesAlone(s, events[0], n);
      OthersLeaveCommit(s, events[0], n);
      RunAlone(Step(s, events[0]), events[1..], t, n);
    }
  }

  /** The second node is needed: the commit index moves only on answers, so a single node never commits anything. */
  lemma AloneNothingCommits(s: State, n: Id)
    requires Reachable(s) && s.nodes.Keys == {n}
    ensures s.nodes[n].commitIndex == 0
  {
    hide Inv, Run, Evolves;
    var start, events :| Initial(start) && Run(start, events, s);
    StartInv(start);
    RunKeepsInv(start, events, s);
    assert start.nodes.Keys == s.nodes.Keys by { SameKeys(start, s); }
    RunAlone(start, events, s, n);
  }

  lemma SameKeys(s: State, t: State)
    requires Evolves(s, t)
    ensures t.nodes.Keys == s.nodes.Keys
  {}
}
