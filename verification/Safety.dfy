/** The invariant holds at the start and is kept by every step, hence by every run. */
module Safety {
  import opened Types
  import opened Cluster
  import opened Runs
  import opened Invariant
  import opened Progress
  import opened Elections
  import opened Crowning
  import opened Replication
  import opened Delivery

  // ----- from the start, through every step -----

  lemma InitNodes(config: map<Id, seq<Id>>)
    requires ValidConfig(config)
    ensures Config(Init(config)) && Leadership(Init(config)) && Books(Init(config))
    ensures LeaderLogs(Init(config)) && NodeLogs(Init(config))
  {}

  lemma InitLedger(config: map<Id, seq<Id>>)
    requires ValidConfig(config)
    ensures Ledger(Init(config)) && NodesCarry(Init(config)) && LeadersCarry(Init(config))
  {
    forall n, u: nat ensures Acked(Init(config), n, u) == 0 {}
  }

  lemma InitMessages(config: map<Id, seq<Id>>)
    requires ValidConfig(config)
    ensures Commits(Init(config)) && Appends(Init(config)) && AppendReplies(Init(config)) && Emission(Init(config))
  {}

  lemma InitVotes(config: map<Id, seq<Id>>)
    requires ValidConfig(config)
    ensures VoteInv(Init(config))
  {}

  lemma InitInv(config: map<Id, seq<Id>>)
    requires ValidConfig(config)
    ensures Inv(Init(config))
  {
    hide Config, LeaderLogs, NodeLogs, Leadership, Ledger, NodesCarry, LeadersCarry, Commits, Appends, AppendReplies,
      Books, Emission, VoteInv, Init;
    InitNodes(config);
    InitLedger(config);
    InitMessages(config);
    InitVotes(config);
  }

  lemma StartInv(s: State)
    requires Initial(s)
    ensures Inv(s)
  {
    hide Inv, Init;
    var config :| ValidConfig(config) && s == Init(config);
    InitInv(config);
  }

  /** Every step of every kind keeps the invariant and only adds to what it keeps. */
  lemma StepKeepsInv(s: State, ev: Event)
    requires Inv(s) && Enabled(s, ev)
    ensures Inv(Step(s, ev)) && Evolves(s, Step(s, ev))
  {
    hide Inv, Evolves;
    match ev
    case Timeout(c) => TimeoutKeepsInv(s, c);
    case DeliverVote(v, req) => DeliverVoteKeepsInv(s, v, req);
    case AnswerVote(c, r) => AnswerVoteKeepsInv(s, c, r);
    case CountVote(c, p) => CountVoteKeepsInv(s, c, p);
    case LoseVote(c, p) => LoseVoteKeepsInv(s, c, p);
    case CloseElection(c) => CloseElectionKeepsInv(s, c);
    case Draw(n, stroke) => DrawKeepsInv(s, n, stroke);
    case Send(n, p) => SendKeepsInv(s, n, p);
    case DeliverAppend(m) => DeliverAppendKeepsInv(s, m);
    case AnswerAppend(r) => AnswerAppendKeepsInv(s, r);
    case Apply(n) => ApplyKeepsInv(s, n);
    case Consume(n) => ConsumeKeepsInv(s, n);
  }

  lemma {:induction false} RunKeepsInv(s: State, events: seq<Event>, t: State)
    requires Inv(s) && Run(s, events, t)
    ensures Inv(t) && Evolves(s, t)
    decreases |events|
  {
    hide Inv, Evolves, Step, Enabled, Run;
    if events == [] {
      NoEvents(s, t);
      EvolvesRefl(s);
    } else {
      FirstEvent(s, events, t);
      StepKeepsInv(s, events[0]);
      RunKeepsInv(Step(s, events[0]), events[1..], t);
      EvolvesTrans(s, Step(s, events[0]), t);
    }
  }

  lemma ReachableInv(s: State)
    requires Reachable(s)
    ensures Inv(s)
  {
    hide Inv, Evolves, Run, Initial;
    var start, events :| Initial(start) && Run(start, events, s);
    StartInv(start);
    RunKeepsInv(start, events, s);
  }

  /** A reachable state and a later one. */
  lemma LaterInv(s: State, events: seq<Event>, t: State)
    requires Reachable(s) && Run(s, events, t)
    ensures Inv(s) && Inv(t) && Evolves(s, t)
  {
    hide Inv, Evolves, Run, Reachable;
    ReachableInv(s);
    RunKeepsInv(s, events, t);
  }
}
