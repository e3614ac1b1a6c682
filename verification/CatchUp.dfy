/** A leader and one follower on their own: how many exchanges until the follower has the leader's log. */
module CatchUp {
  import opened Types
  import opened Logs
  import opened NodeState
  import opened Cluster
  import opened Runs
  import opened Invariant
  import opened Safety
  import opened Guarantees

  /** A leader and a peer whose term is not higher. */
  ghost predicate Paired(s: State, l: Id, p: Id) {
    && Reachable(s) && l in s.nodes && p in s.nodes && p in s.nodes[l].peers && s.nodes[l].role == Leader
    && p in s.nodes[l].nextIndex && s.nodes[p].currentTerm <= s.nodes[l].currentTerm
  }

  /** The request the leader would send now. */
  function Request(s: State, l: Id, p: Id): AppendMsg
    requires l in s.nodes && s.nodes[l].role == Leader && p in s.nodes[l].nextIndex
  {
    AppendMsg(AppendRequestFor(s.nodes[l], p).value, p)
  }

  /** The leader sends its request, the peer answers that request, the leader takes that answer. */
  ghost predicate Exchanged(s: State, l: Id, p: Id, reply: AppendReply, t: State) {
    && l in s.nodes && s.nodes[l].role == Leader && p in s.nodes[l].nextIndex && p in s.nodes
    && reply.msg == Request(s, l, p) && HandleAppendEntries(s.nodes[p], reply.msg.req).1 == Some(reply.resp)
    && Run(s, [Send(l, p), DeliverAppend(reply.msg), AnswerAppend(reply)], t)
  }

  lemma ThreeSteps(s: State, a: Event, b: Event, c: Event, t: State)
    ensures Run(s, [a, b, c], t) <==>
            && Enabled(s, a) && Enabled(Step(s, a), b) && Enabled(Step(Step(s, a), b), c)
            && t == Step(Step(Step(s, a), b), c)
  {
    hide Run, Step, Enabled;
    assert [a, b, c][1..] == [b, c] && [b, c][1..] == [c] && [c][1..] == [];
    FirstEvent(s, [a, b, c], t);
    if Enabled(s, a) {
      FirstEvent(Step(s, a), [b, c], t);
      if Enabled(Step(s, a), b) {
        FirstEvent(Step(Step(s, a), b), [c], t);
        if Enabled(Step(Step(s, a), b), c) { NoEvents(Step(Step(Step(s, a), b), c), t); }
      }
    }
  }

  // ----- one exchange, node by node -----

  /** A follower whose term is not higher accepts exactly when its log passes the check, and otherwise keeps its log. */
  lemma FollowerAnswers(n: Node, req: AppendRequest)
    requires n.currentTerm <= req.term && HandleAppendEntries(n, req).1.Some?
    ensures var (m, answer) := HandleAppendEntries(n, req);
            && m.currentTerm == req.term && answer.value.term <= req.term && m.leaderId == req.leaderId
            && (answer.value.success <==> PrevMatches(n.log, req))
            && (answer.value.success ==>
                  m.commitIndex == FollowerCommit(n.commitIndex, req.leaderCommit, LastIndex(m.log)))
            && (!answer.value.success ==>
                  && m.log == n.log && m.commitIndex == n.commitIndex
                  && answer.value.conflictIndex == ConflictIndex(n.log, req))
  {}

  /** A refusal points at an index the follower's log reaches or at the one after its end, before the leader's next. */
  lemma RefusalPointsBack(log: Entries, req: AppendRequest)
    requires !PrevMatches(log, req)
    ensures 1 <= ConflictIndex(log, req) <= req.prevLogIndex && ConflictIndex(log, req) <= |log|
  {}

  ghost predicate SameElsewhere(a: map<Id, nat>, b: map<Id, nat>, p: Id) {
    forall q :: q != p ==> (q in a <==> q in b) && (q in a ==> a[q] == b[q])
  }

  /** Only the books change; after a success nothing that may be committed is left uncommitted. */
  lemma LeaderTakes(n: Node, p: Id, req: AppendRequest, resp: AppendResponse)
    requires n.role == Leader && n.currentTerm == req.term && resp.term <= req.term
    requires !resp.success ==> resp.conflictIndex > 0
    ensures var m := HandleAppendResponse(n, p, req, resp);
            && n.commitIndex <= m.commitIndex
            && SameElsewhere(n.nextIndex, m.nextIndex, p) && SameElsewhere(n.matchIndex, m.matchIndex, p)
            && (!resp.success ==> m == n.(nextIndex := n.nextIndex[p := resp.conflictIndex]))
            && (resp.success ==>
                  && (forall i: nat :: Committable(m, i) ==> i <= m.commitIndex)
                  && m == n.(commitIndex := m.commitIndex, nextIndex := m.nextIndex, matchIndex := m.matchIndex)
                  && if req.entries == [] then m.nextIndex == n.nextIndex && m.matchIndex == n.matchIndex
                     else && m.nextIndex == n.nextIndex[p := LastOf(req.entries) + 1]
                          && m.matchIndex == n.matchIndex[p := LastOf(req.entries)])
  {
    if resp.success {
      var booked := Booked(n, p, req);
      var m := HandleAppendResponse(n, p, req, resp);
      assert m == AdvanceCommitIndex(booked);
      forall i: nat | Committable(m, i) ensures i <= m.commitIndex { assert Committable(booked, i); }
    }
  }

  /** The request reaches the end of the leader's log and tells what the leader has committed. */
  lemma RequestCoversLog(s: State, l: Id, p: Id)
    requires Paired(s, l, p)
    ensures var req := Request(s, l, p).req;
            && 1 <= s.nodes[l].nextIndex[p] <= |s.nodes[l].log| && req.prevLogIndex == s.nodes[l].nextIndex[p] - 1
            && EndOf(req) == LastIndex(s.nodes[l].log) && req.term == s.nodes[l].currentTerm && req.leaderId == l
            && req.leaderCommit == s.nodes[l].commitIndex <= LastIndex(s.nodes[l].log) && p != l
            && (req.entries != [] ==> LastOf(req.entries) == LastIndex(s.nodes[l].log))
  {
    hide Inv, Reachable;
    ReachableInv(s);
    BookHolds(s, l);
    NodeInvariant(s, l);
  }

  /** A follower that has the whole log has the entry before any request. */
  lemma CaughtUpMatches(s: State, l: Id, p: Id)
    requires Paired(s, l, p) && CaughtUp(s, l, p)
    ensures PrevMatches(s.nodes[p].log, Request(s, l, p).req)
  {
    hide Reachable;
    RequestCoversLog(s, l, p);
  }

  // ----- one exchange -----

  /** The three states after the events of an exchange, as far as they matter here. */
  lemma ExchangeSteps(s: State, l: Id, p: Id, reply: AppendReply)
    requires Paired(s, l, p) && reply.msg == Request(s, l, p)
    requires HandleAppendEntries(s.nodes[p], reply.msg.req).1 == Some(reply.resp)
    ensures var a, b, c := Send(l, p), DeliverAppend(reply.msg), AnswerAppend(reply);
            && Enabled(s, a) && Enabled(Step(s, a), b) && Enabled(Step(Step(s, a), b), c)
            && var answered, t := Step(Step(s, a), b), Step(Step(Step(s, a), b), c);
               && answered.nodes == s.nodes[p := HandleAppendEntries(s.nodes[p], reply.msg.req).0]
               && reply in answered.appendReplies
               && t.nodes == answered.nodes[
                    l := HandleAppendResponse(answered.nodes[l], p, reply.msg.req, reply.resp)]
  {
    hide Reachable, HandleAppendEntries, HandleAppendResponse;
    RequestCoversLog(s, l, p);
  }

  /** From a leader and its peer an exchange is always possible. */
  lemma CanExchange(s: State, l: Id, p: Id) returns (reply: AppendReply, t: State)
    requires Paired(s, l, p)
    ensures Exchanged(s, l, p, reply, t)
  {
    hide Reachable, HandleAppendEntries, HandleAppendResponse, Run, Step;
    var m := Request(s, l, p);
    RequestCoversLog(s, l, p);
    assert Enabled(s, Send(l, p));
    Reach(s, Send(l, p));
    SentRequest(s, l, p);
    NoPanic(Step(s, Send(l, p)), m);
    reply := AppendReply(m, HandleAppendEntries(s.nodes[p], m.req).1.value);
    ExchangeSteps(s, l, p, reply);
    t := Step(Step(Step(s, Send(l, p)), DeliverAppend(m)), AnswerAppend(reply));
    ThreeSteps(s, Send(l, p), DeliverAppend(m), AnswerAppend(reply), t);
  }

  lemma SentRequest(s: State, l: Id, p: Id)
    requires Paired(s, l, p)
    ensures Enabled(s, Send(l, p)) && Request(s, l, p) in Step(s, Send(l, p)).appends
    ensures Step(s, Send(l, p)).nodes == s.nodes
  {}

  /** The follower has the leader's whole log and is in its term. */
  ghost predicate CaughtUp(s: State, l: Id, p: Id) {
    && l in s.nodes && p in s.nodes && s.nodes[p].currentTerm == s.nodes[l].currentTerm
    && Agree(s.nodes[l].log, s.nodes[p].log, LastIndex(s.nodes[l].log))
  }

  /** The follower has caught up, knows its leader and has committed at least the first c entries. */
  ghost predicate Served(s: State, l: Id, p: Id, c: nat) {
    CaughtUp(s, l, p) && s.nodes[p].leaderId == l && c <= s.nodes[p].commitIndex
  }

  /** The leader has counted its whole log for the peer, or still has entries to send. */
  ghost predicate Pending(n: Node, p: Id) {
    Counted(n, p) || (p in n.nextIndex && n.nextIndex[p] < |n.log|)
  }

  ghost predicate Counted(n: Node, p: Id) {
    p in n.matchIndex && n.matchIndex[p] == LastIndex(n.log)
  }

  /** What happens between a leader and a peer touches nobody else, and of the leader only its books for the peer. */
  ghost predicate Aside(s: State, l: Id, p: Id, t: State) {
    && l in s.nodes && l in t.nodes && t.nodes.Keys == s.nodes.Keys
    && (forall q :: q in s.nodes && q != l && q != p ==> t.nodes[q] == s.nodes[q])
    && var n, m := s.nodes[l], t.nodes[l];
       && m == n.(commitIndex := m.commitIndex, nextIndex := m.nextIndex, matchIndex := m.matchIndex)
       && n.commitIndex <= m.commitIndex
       && SameElsewhere(n.nextIndex, m.nextIndex, p) && SameElsewhere(n.matchIndex, m.matchIndex, p)
  }

  /**
   * Every exchange gives the follower the leader's whole log and commit index, or leaves its log alone and moves
   * the leader's next index down, to a place the follower's log reaches or just past its end. Nothing else
   * happens to the leader, and a follower that had the whole log keeps it.
   */
  lemma OneExchange(s: State, l: Id, p: Id, reply: AppendReply, t: State)
    requires Paired(s, l, p) && Exchanged(s, l, p, reply, t)
    ensures Paired(t, l, p) && Aside(s, l, p, t) && t.nodes[p].currentTerm == t.nodes[l].currentTerm
    ensures Pending(s.nodes[l], p) ==> Pending(t.nodes[l], p)
    ensures || (&& Served(t, l, p, s.nodes[l].commitIndex)
                && (Pending(s.nodes[l], p) ==> Counted(t.nodes[l], p))
                && forall i: nat :: Committable(t.nodes[l], i) ==> i <= t.nodes[l].commitIndex)
            || (&& !CaughtUp(s, l, p) && t.nodes[p].log == s.nodes[p].log
                && t.nodes[l].nextIndex[p] < s.nodes[l].nextIndex[p] && t.nodes[l].nextIndex[p] <= |s.nodes[p].log|)
  {
    hide Inv, Reachable, HandleAppendEntries, HandleAppendResponse, Run, Step, Enabled, Committable, Agree,
      SameElsewhere, PrevMatches, ConflictIndex;
    var a, b, c := Send(l, p), DeliverAppend(reply.msg), AnswerAppend(reply);
    RequestCoversLog(s, l, p);
    ThreeSteps(s, a, b, c, t);
    ExchangeSteps(s, l, p, reply);
    var answered := Step(Step(s, a), b);
    Reach(s, a);
    Reach(Step(s, a), b);
    Reach(answered, c);
    FollowerAnswers(s.nodes[p], reply.msg.req);
    if !reply.resp.success { RefusalPointsBack(s.nodes[p].log, reply.msg.req); }
    if CaughtUp(s, l, p) { CaughtUpMatches(s, l, p); }
    LeaderTakes(s.nodes[l], p, reply.msg.req, reply.resp);
    assert t.nodes[p] == answered.nodes[p] && answered.nodes[l] == s.nodes[l];
    NextStays(t, l, p);
    if reply.resp.success { ConfirmedHolds(answered, l, p, reply); }
  }

  lemma NextStays(t: State, l: Id, p: Id)
    requires Reachable(t) && l in t.nodes && t.nodes[l].role == Leader && p in t.nodes[l].peers
    ensures p in t.nodes[l].nextIndex
  {
    hide Inv, Reachable;
    ReachableInv(t);
    BookHolds(t, l);
  }

  /** A confirmed request is held by the peer while it is in the leader's term. */
  lemma ConfirmedHolds(s: State, l: Id, p: Id, r: AppendReply)
    requires Reachable(s) && l in s.nodes && p in s.nodes && s.nodes[l].role == Leader
    requires r in s.appendReplies && r.resp.success && r.msg.to == p && r.msg.req.term == s.nodes[l].currentTerm
    requires s.nodes[p].currentTerm == s.nodes[l].currentTerm
    ensures Agree(s.nodes[l].log, s.nodes[p].log, EndOf(r.msg.req)) && EndOf(r.msg.req) < |s.nodes[p].log|
  {
    hide Config, LeaderLogs, NodeLogs, Leadership, Ledger, NodesCarry, LeadersCarry, Commits, Appends, Books, Emission,
      VoteInv, AppendOK, Reachable;
    ReachableInv(s);
    assert ReplyOK(s, r);
    ConfirmedAgrees(s, l, p, EndOf(r.msg.req));
  }

  // ----- all exchanges -----

  /** A number of exchanges in a row, with nothing in between. */
  ghost predicate Exchanges(s: State, l: Id, p: Id, rounds: nat, t: State)
    decreases rounds
  {
    if rounds == 0 then s == t
    else exists reply, u :: Exchanged(s, l, p, reply, u) && Exchanges(u, l, p, rounds - 1, t)
  }

  /** Nothing stops the exchanges. */
  lemma {:induction false} CanExchangeOn(s: State, l: Id, p: Id, rounds: nat) returns (t: State)
    requires Paired(s, l, p)
    ensures Exchanges(s, l, p, rounds, t)
    decreases rounds
  {
    hide Exchanged, Paired;
    if rounds == 0 {
      t := s;
    } else {
      var reply, u := CanExchange(s, l, p);
      OneExchange(s, l, p, reply, u);
      t := CanExchangeOn(u, l, p, rounds - 1);
    }
  }

  lemma AsideTrans(s: State, l: Id, p: Id, t: State, u: State)
    requires Aside(s, l, p, t) && Aside(t, l, p, u)
    ensures Aside(s, l, p, u)
  {}

  /** What a row of exchanges does not change. */
  lemma {:induction false} ExchangesKeep(s: State, l: Id, p: Id, rounds: nat, t: State, c: nat)
    requires Paired(s, l, p) && Exchanges(s, l, p, rounds, t)
    ensures Paired(t, l, p) && Aside(s, l, p, t)
    ensures Served(s, l, p, c) && c <= s.nodes[l].commitIndex ==> Served(t, l, p, c)
    ensures CaughtUp(s, l, p) && Counted(s.nodes[l], p) ==> Counted(t.nodes[l], p)
    decreases rounds
  {
    hide Exchanged, Reachable, CaughtUp, Committable;
    if rounds > 0 {
      var reply, u :| Exchanged(s, l, p, reply, u) && Exchanges(u, l, p, rounds - 1, t);
      OneExchange(s, l, p, reply, u);
      ExchangesKeep(u, l, p, rounds - 1, t, c);
      AsideTrans(s, l, p, u, t);
    }
  }

  /**
   * Exchanging one request at a time with nothing in between, the follower has the leader's whole log
   * after as many rounds as the leader's next index for it, and after two more rounds than its own last
   * index, however the exchanges go; and more exchanges do not take it away again. It then knows its leader
   * and has committed what the leader had, and the leader counts it for its whole log.
   */
  lemma {:induction false} CatchesUp(s: State, l: Id, p: Id, rounds: nat, t: State)
    requires Paired(s, l, p) && Exchanges(s, l, p, rounds, t)
    requires rounds >= s.nodes[l].nextIndex[p] || rounds >= LastIndex(s.nodes[p].log) + 2
    ensures Paired(t, l, p) && t.nodes[l].log == s.nodes[l].log && t.nodes[l].currentTerm == s.nodes[l].currentTerm
    ensures Agree(s.nodes[l].log, t.nodes[p].log, LastIndex(s.nodes[l].log))
    ensures t.nodes[p].leaderId == l && s.nodes[l].commitIndex <= t.nodes[p].commitIndex
    ensures Served(t, l, p, s.nodes[l].commitIndex) && Aside(s, l, p, t)
    ensures Pending(s.nodes[l], p) ==> Counted(t.nodes[l], p)
    decreases rounds
  {
    hide Exchanged, Reachable, Agree, SameElsewhere, Committable;
    RequestCoversLog(s, l, p);
    var reply, u :| Exchanged(s, l, p, reply, u) && Exchanges(u, l, p, rounds - 1, t);
    OneExchange(s, l, p, reply, u);
    if Served(u, l, p, s.nodes[l].commitIndex) && (Pending(s.nodes[l], p) ==> Counted(u.nodes[l], p)) {
      ExchangesKeep(u, l, p, rounds - 1, t, s.nodes[l].commitIndex);
    } else {
      CatchesUp(u, l, p, rounds - 1, t);
    }
    AsideTrans(s, l, p, u, t);
  }
}
