/** Runs taken apart and put together. */
module Runs {
  import opened Types
  import opened Cluster

  lemma NoEvents(s: State, t: State)
    ensures Run(s, [], t) <==> s == t
  {
    if s == t { assert Trace([s], []); }
  }

  lemma DropFirst(states: seq<State>, events: seq<Event>)
    requires Trace(states, events) && events != []
    ensures Trace(states[1..], events[1..])
    ensures Enabled(states[0], events[0]) && Step(states[0], events[0]) == states[1]
  {
    hide Enabled, Step;
    forall i | 0 <= i < |events| - 1
      ensures Enabled(states[1..][i], events[1..][i]) && Step(states[1..][i], events[1..][i]) == states[1..][i + 1]
    {
      assert events[i + 1] == events[1..][i];
    }
  }

  lemma AddFirst(s: State, states: seq<State>, events: seq<Event>)
    requires events != [] && Trace(states, events[1..])
    requires Enabled(s, events[0]) && Step(s, events[0]) == states[0]
    ensures Trace([s] + states, events)
  {
    hide Enabled, Step;
    var all := [s] + states;
    forall i | 0 <= i < |events| ensures Enabled(all[i], events[i]) && Step(all[i], events[i]) == all[i + 1] {
      if i > 0 { assert events[i] == events[1..][i - 1]; }
    }
  }

  /** A run is its first step and a run from there. */
  lemma FirstEvent(s: State, events: seq<Event>, t: State)
    requires events != []
    ensures Run(s, events, t) <==> Enabled(s, events[0]) && Run(Step(s, events[0]), events[1..], t)
  {
    hide Enabled, Step;
    if Run(s, events, t) {
      var states :| Trace(states, events) && states[0] == s && states[|events|] == t;
      DropFirst(states, events);
      assert Trace(states[1..], events[1..]) && states[1..][|events| - 1] == t;
    }
    if Enabled(s, events[0]) && Run(Step(s, events[0]), events[1..], t) {
      var rest :| Trace(rest, events[1..]) && rest[0] == Step(s, events[0]) && rest[|events| - 1] == t;
      AddFirst(s, rest, events);
      assert Trace([s] + rest, events) && ([s] + rest)[|events|] == t;
    }
  }

  lemma {:induction false} RunsJoin(s: State, first: seq<Event>, t: State, second: seq<Event>, u: State)
    requires Run(s, first, t) && Run(t, second, u)
    ensures Run(s, first + second, u)
    decreases |first|
  {
    hide Run, Step, Enabled;
    if first == [] {
      NoEvents(s, t);
      assert first + second == second;
    } else {
      FirstEvent(s, first, t);
      RunsJoin(Step(s, first[0]), first[1..], t, second, u);
      assert (first + second)[1..] == first[1..] + second;
      FirstEvent(s, first + second, u);
    }
  }

  /** Whatever a reachable state leads to is reachable. */
  lemma LaterReachable(s: State, events: seq<Event>, t: State)
    requires Reachable(s) && Run(s, events, t)
    ensures Reachable(t)
  {
    hide Run, Initial;
    var start, before :| Initial(start) && Run(start, before, s);
    RunsJoin(start, before, s, events, t);
  }

  lemma OneStep(s: State, ev: Event)
    requires Enabled(s, ev)
    ensures Run(s, [ev], Step(s, ev))
  {
    hide Run, Step, Enabled;
    NoEvents(Step(s, ev), Step(s, ev));
    assert [ev][1..] == [];
    FirstEvent(s, [ev], Step(s, ev));
  }

  /** One more step of a run. */
  lemma Reach(s: State, ev: Event)
    requires Reachable(s) && Enabled(s, ev)
    ensures Reachable(Step(s, ev))
  {
    hide Reachable, Run, Step, Enabled;
    OneStep(s, ev);
    LaterReachable(s, [ev], Step(s, ev));
  }

  lemma StartReachable(config: map<Id, seq<Id>>)
    requires ValidConfig(config)
    ensures Reachable(Init(config))
  {
    hide ValidConfig, Run, Init;
    NoEvents(Init(config), Init(config));
    assert Initial(Init(config));
  }
}
