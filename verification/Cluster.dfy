/**
 * The whole cluster as a transition system. Each event is one critical section of one node, or a
 * delivery to one; messages are never removed, so they may be lost, repeated and reordered.
 */
module Cluster {
  import opened Types
  import opened Logs
  import opened NodeState

  // ----- messages, each answer with the request it answers -----

  datatype VoteReply = VoteReply(req: VoteRequest, voter: Id, resp: VoteResponse)

  datatype AppendMsg = AppendMsg(req: AppendRequest, to: Id)

  datatype AppendReply = AppendReply(msg: AppendMsg, resp: AppendResponse)

  /**
   * An election under way: who has not answered yet, whose vote has passed the check but is not yet counted,
   * and the shared counter. `voters`, those counted, is history.
   */
  datatype Election = Election(req: VoteRequest, waiting: set<Id>, checked: set<Id>, votes: nat, voters: set<Id>)

  // ----- history: written by the steps, never read by them -----

  /** The voter answered yes to the candidate in the term (or is the candidate). */
  datatype Grant = Grant(voter: Id, term: nat, candidate: Id)

  /**
   * leaderLog[t] is the log of the leader of term t, as long as it has been in that term;
   * leaderOf[t] and quorum[t] are who won t and with whose votes; acked[(n, t)] is how far n has
   * confirmed the log of that leader; emitted[n] is everything n ever pushed to its channel.
   */
  datatype History = History(
    leaderLog: map<nat, Entries>, leaderOf: map<nat, Id>, quorum: map<nat, set<Id>>,
    grants: set<Grant>, acked: map<(Id, nat), nat>, emitted: map<Id, seq<Entry>>)

  datatype State = State(
    nodes: map<Id, Node>, elections: map<Id, Option<Election>>,
    voteRequests: set<VoteRequest>, voteReplies: set<VoteReply>,
    appends: set<AppendMsg>, appendReplies: set<AppendReply>,
    h: History)

  function Acked(s: State, n: Id, term: nat): nat {
    if (n, term) in s.h.acked then s.h.acked[(n, term)] else 0
  }

  datatype Event =
    | Timeout(candidate: Id)
    | DeliverVote(voter: Id, voteReq: VoteRequest)
    | AnswerVote(candidate: Id, voteReply: VoteReply)
    | CountVote(candidate: Id, peer: Id)
    | LoseVote(candidate: Id, peer: Id)
    | CloseElection(candidate: Id)
    | Draw(node: Id, stroke: Stroke)
    | Send(node: Id, peer: Id)
    | DeliverAppend(msg: AppendMsg)
    | AnswerAppend(reply: AppendReply)
    | Apply(node: Id)
    | Consume(node: Id)

  /** An election starts only in a node that is not leading and has no other election under way. */
  predicate Enabled(s: State, ev: Event) {
    match ev
    case Timeout(c) => c in s.nodes && s.nodes[c].role != Leader && c in s.elections && s.elections[c].None?
    case DeliverVote(v, req) => v in s.nodes && req in s.voteRequests && req.candidateId != v
    case AnswerVote(c, r) =>
      && c in s.nodes && c in s.elections && s.elections[c].Some? && r in s.voteReplies
      && r.req == s.elections[c].value.req && r.voter in s.elections[c].value.waiting
    case CountVote(c, p) =>
      c in s.elections && s.elections[c].Some? && p in s.elections[c].value.checked
    case LoseVote(c, p) =>
      c in s.elections && s.elections[c].Some? && p in s.elections[c].value.waiting
    case CloseElection(c) =>
      && c in s.nodes && c in s.elections && s.elections[c].Some?
      && s.elections[c].value.waiting == {} && s.elections[c].value.checked == {}
    case Draw(n, _) => n in s.nodes
    case Send(n, p) => n in s.nodes && p in s.nodes[n].peers
    case DeliverAppend(m) => m in s.appends && m.to in s.nodes
    case AnswerAppend(r) => r in s.appendReplies && r.msg.req.leaderId in s.nodes
    case Apply(n) => n in s.nodes && CanApply(s.nodes[n]) && n in s.h.emitted
    case Consume(n) => n in s.nodes && s.nodes[n].commitCh != []
  }

  function Put(s: State, id: Id, n: Node): State {
    s.(nodes := s.nodes[id := n])
  }

  function StartElection(s: State, c: Id): State
    requires c in s.nodes
  {
    var n := BecomeCandidate(s.nodes[c]);
    var req := RequestFor(n);
    Put(s, c, n).(
      elections := s.elections[c := Some(Election(req, set p | p in n.peers, {}, 1, {c}))],
      voteRequests := s.voteRequests + {req},
      h := s.h.(grants := s.h.grants + {Grant(c, n.currentTerm, c)}))
  }

  function AnswerVoteRequest(s: State, v: Id, req: VoteRequest): State
    requires v in s.nodes
  {
    var (n, resp) := HandleVoteRequest(s.nodes[v], req);
    Put(s, v, n).(
      voteReplies := s.voteReplies + {VoteReply(req, v, resp)},
      h := if resp.voteGranted then s.h.(grants := s.h.grants + {Grant(v, req.term, req.candidateId)}) else s.h)
  }

  function TakeVoteReply(s: State, c: Id, r: VoteReply): State
    requires c in s.nodes && c in s.elections && s.elections[c].Some?
  {
    var e := s.elections[c].value;
    var (n, counts) := HandleVoteResponse(s.nodes[c], e.req.term, r.resp);
    Put(s, c, n).(elections := s.elections[c := Some(
      e.(waiting := e.waiting - {r.voter}, checked := if counts then e.checked + {r.voter} else e.checked))])
  }

  function TakeVote(s: State, c: Id, p: Id): State
    requires c in s.elections && s.elections[c].Some?
  {
    var e := s.elections[c].value;
    s.(elections := s.elections[c := Some(
      e.(checked := e.checked - {p}, votes := e.votes + 1, voters := e.voters + {p}))])
  }

  /** The history records the winner of its current term. */
  function WithWinner(s: State, c: Id, quorum: set<Id>): State
    requires c in s.nodes
  {
    var n := s.nodes[c];
    var t := n.currentTerm;
    s.(h := s.h.(
      leaderLog := s.h.leaderLog[t := n.log], leaderOf := s.h.leaderOf[t := c],
      quorum := s.h.quorum[t := quorum], acked := s.h.acked[(c, t) := LastIndex(n.log)]))
  }

  function EndElection(s: State, c: Id): State
    requires c in s.nodes && c in s.elections && s.elections[c].Some?
  {
    var e := s.elections[c].value;
    var t := Put(s, c, FinishElection(s.nodes[c], e.req.term, e.votes)).(elections := s.elections[c := None]);
    if s.nodes[c].role != Leader && t.nodes[c].role == Leader then WithWinner(t, c, e.voters) else t
  }

  function AcceptStroke(s: State, l: Id, stroke: Stroke): State
    requires l in s.nodes
  {
    var n := HandleStroke(s.nodes[l], stroke);
    var t := Put(s, l, n);
    if n.role != Leader then t
    else t.(h := s.h.(
      leaderLog := s.h.leaderLog[n.currentTerm := n.log],
      acked := s.h.acked[(l, n.currentTerm) := LastIndex(n.log)]))
  }

  function SendAppend(s: State, l: Id, p: Id): State
    requires l in s.nodes
  {
    match AppendRequestFor(s.nodes[l], p)
    case None => s
    case Some(req) => s.(appends := s.appends + {AppendMsg(req, p)})
  }

  function Max(a: nat, b: nat): nat { if a < b then b else a }

  function AnswerAppendMsg(s: State, m: AppendMsg): State
    requires m.to in s.nodes
  {
    var (n, resp) := HandleAppendEntries(s.nodes[m.to], m.req);
    match resp
    case None => Put(s, m.to, n)
    case Some(answer) =>
      var t := Put(s, m.to, n).(appendReplies := s.appendReplies + {AppendReply(m, answer)});
      if answer.success then
        var upTo := Max(Acked(s, m.to, m.req.term), m.req.prevLogIndex + |m.req.entries|);
        t.(h := s.h.(acked := s.h.acked[(m.to, m.req.term) := upTo]))
      else t
  }

  function TakeAppendReply(s: State, r: AppendReply): State
    requires r.msg.req.leaderId in s.nodes
  {
    var l := r.msg.req.leaderId;
    Put(s, l, HandleAppendResponse(s.nodes[l], r.msg.to, r.msg.req, r.resp))
  }

  function Emit(s: State, n: Id): State
    requires n in s.nodes && CanApply(s.nodes[n]) && n in s.h.emitted
  {
    Put(s, n, ApplyNext(s.nodes[n])).(
      h := s.h.(emitted := s.h.emitted[n := s.h.emitted[n] + [s.nodes[n].log[s.nodes[n].lastApplied + 1]]]))
  }

  function Step(s: State, ev: Event): State
    requires Enabled(s, ev)
  {
    match ev
    case Timeout(c) => StartElection(s, c)
    case DeliverVote(v, req) => AnswerVoteRequest(s, v, req)
    case AnswerVote(c, r) => TakeVoteReply(s, c, r)
    case CountVote(c, p) => TakeVote(s, c, p)
    case LoseVote(c, p) =>
      var e := s.elections[c].value;
      s.(elections := s.elections[c := Some(e.(waiting := e.waiting - {p}))])
    case CloseElection(c) => EndElection(s, c)
    case Draw(n, stroke) => AcceptStroke(s, n, stroke)
    case Send(n, p) => SendAppend(s, n, p)
    case DeliverAppend(m) => AnswerAppendMsg(s, m)
    case AnswerAppend(r) => TakeAppendReply(s, r)
    case Apply(n) => Emit(s, n)
    case Consume(n) => Put(s, n, s.nodes[n].(commitCh := s.nodes[n].commitCh[1..]))
  }

  // ----- runs -----

  ghost predicate Distinct(peers: seq<Id>) {
    forall i, j :: 0 <= i < j < |peers| ==> peers[i] != peers[j]
  }

  /** Non-empty ids; everyone lists everyone else once. */
  ghost predicate ValidConfig(config: map<Id, seq<Id>>) {
    && NOBODY !in config
    && forall id :: id in config ==>
         Distinct(config[id]) && forall p :: p in config[id] <==> p in config && p != id
  }

  function Init(config: map<Id, seq<Id>>): State {
    State(map id | id in config :: NewNode(id, config[id]), map id | id in config :: None, {}, {}, {}, {},
          History(map[], map[], map[], {}, map[], map id | id in config :: []))
  }

  ghost predicate Initial(s: State) {
    exists config :: ValidConfig(config) && s == Init(config)
  }

  /** Each event is enabled in its turn and leads from one state to the next. */
  ghost predicate Trace(states: seq<State>, events: seq<Event>) {
    && |states| == |events| + 1
    && forall i {:trigger events[i]} :: 0 <= i < |events| ==>
         Enabled(states[i], events[i]) && Step(states[i], events[i]) == states[i + 1]
  }

  /** The events lead from s to t. */
  ghost predicate Run(s: State, events: seq<Event>, t: State) {
    exists states :: Trace(states, events) && states[0] == s && states[|events|] == t
  }

  ghost predicate Reachable(s: State) {
    exists start, events :: Initial(start) && Run(start, events, s)
  }
}
