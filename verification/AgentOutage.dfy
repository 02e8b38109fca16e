/**
 Agent outages end to end: the session registry fires its lifecycle hook, the wiring turns
 each call into an alert event, and the engine tracks it. No silencing, no shutdown, every
 alert write succeeds, and a call reaches the engine before the next registry operation.
 */
module AgentOutage {
  import opened AgentSessions
  import A = AlertEngine

  const AGENT: string := "agent"
  const DISCONNECTED: string := "disconnected"

  function OutageKey(agent: string): A.Key {
    A.Key(AGENT, DISCONNECTED, AGENT, agent)
  }

  predicate IsOutage(c: Call) {
    !c.connected && !Terminal(c.reason)
  }

  // Reconnection and intentional removal clear the alert; anything else raises it.
  function LifecycleEvent(c: Call, name: string): A.Event {
    var details := if IsOutage(c) then c.agent + c.reason else "{}";
    A.Event(OutageKey(c.agent), A.Body(if IsOutage(c) then "warning" else "info", name, name, details), !IsOutage(c))
  }

  datatype System = System(sessions: State, engine: A.State)

  // The calls the last operation made.
  function NewCalls(before: State, after: State): seq<Call> {
    if |before.calls| <= |after.calls| then after.calls[|before.calls|..] else []
  }

  function Deliver(engine: A.State, calls: seq<Call>, name: string): A.State
    decreases calls
  {
    if calls == [] then engine
    else Deliver(A.Process(engine, LifecycleEvent(calls[0], name), false, A.ALL_OK), calls[1..], name)
  }

  function Step(s: System, op: Op, name: string): System {
    var sessions := Apply(s.sessions, op);
    System(sessions, Deliver(s.engine, NewCalls(s.sessions, sessions), name))
  }

  // A registry operation with the agent's current name, or other traffic of the engine.
  datatype Event = Session(op: Op, name: string) | Other(alert: A.Op)

  function RunAll(engine: A.State, events: seq<Event>): System {
    if events == [] then System(EMPTY, engine)
    else
      var n := |events| - 1;
      var s := RunAll(engine, events[..n]);
      match events[n]
      case Session(op, name) => Step(s, op, name)
      case Other(o) => s.(engine := A.Apply(s.engine, o))
  }

  function SessionOps(events: seq<Event>): seq<Op> {
    if events == [] then []
    else
      var n := |events| - 1;
      if events[n].Session? then SessionOps(events[..n]) + [events[n].op] else SessionOps(events[..n])
  }

  // What else reaches the engine is not about agents.
  predicate Foreign(e: Event) {
    e.Other? ==>
      match e.alert
      case Deliver(x, _, _) => x.key.entityType != AGENT
      case RemoveEntity(t, _, _) => t != AGENT
  }

  ghost predicate InStep(s: System) {
    forall a :: a in s.sessions.offline <==> OutageKey(a) in s.engine.active
  }

  lemma OtherLeavesOutages(engine: A.State, o: A.Op, agent: string)
    requires Foreign(Other(o))
    ensures OutageKey(agent) in A.Apply(engine, o).active <==> OutageKey(agent) in engine.active
  {
  }

  // What one operation may call: at most one hook, for one agent.
  lemma OneCall(st: State, op: Op)
    ensures var calls := NewCalls(st, Apply(st, op)); calls == [] || |calls| == 1
    ensures var calls := NewCalls(st, Apply(st, op));
      forall a :: a in Apply(st, op).offline <==>
        if |calls| == 1 && calls[0].agent == a then IsOutage(calls[0]) else a in st.offline
  {
    var st' := Apply(st, op);
    if |st'.calls| == |st.calls| + 1 {
      assert NewCalls(st, st') == [st'.calls[|st.calls|]];
    }
  }

  lemma StepKeepsInStep(s: System, op: Op, name: string)
    requires InStep(s)
    ensures InStep(Step(s, op, name))
  {
    OneCall(s.sessions, op);
    var calls := NewCalls(s.sessions, Apply(s.sessions, op));
    if |calls| == 1 {
      assert calls[1..] == [];
      var e := LifecycleEvent(calls[0], name);
      assert Deliver(s.engine, calls, name) == Deliver(A.Process(s.engine, e, false, A.ALL_OK), calls[1..], name);
      OutageSettles(s.engine, e);
    }
  }

  lemma OutageSettles(engine: A.State, e: A.Event)
    ensures var after := A.Process(engine, e, false, A.ALL_OK).active;
      (e.key in after <==> !e.recover) && forall k :: k != e.key ==> (k in after <==> k in engine.active)
  {
  }

  /** At every point of a run, whatever else the engine hears, an agent has an active
      "disconnected" alert exactly when the registry holds it as reported offline. */
  lemma {:induction false} AlertExactlyWhenOffline(engine: A.State, events: seq<Event>)
    requires forall a :: OutageKey(a) !in engine.active
    requires forall i :: 0 <= i < |events| ==> Foreign(events[i])
    ensures InStep(RunAll(engine, events)) && RunAll(engine, events).sessions == Run(SessionOps(events))
  {
    if events != [] {
      var n := |events| - 1;
      var s := RunAll(engine, events[..n]);
      AlertExactlyWhenOffline(engine, events[..n]);
      match events[n]
      case Session(op, name) =>
        StepKeepsInStep(s, op, name);
        var ops := SessionOps(events[..n]);
        assert (ops + [op])[..|ops|] == ops;
      case Other(o) =>
        forall a ensures OutageKey(a) in A.Apply(s.engine, o).active <==> OutageKey(a) in s.engine.active {
          OtherLeavesOutages(s.engine, o, a);
        }
    }
  }

  /** What a hook call tells the engine: a connect, a revoke and a delete recover the agent's
      "disconnected" alert, any other end of a stream raises it as a warning. */
  lemma EventSays(c: Call, name: string)
    ensures var e := LifecycleEvent(c, name);
      && e.key == A.Key("agent", "disconnected", "agent", c.agent) && e.body.entityName == name
      && (e.recover <==> c.connected || c.reason == "revoked" || c.reason == "deleted")
      && e.body.severity == (if e.recover then "info" else "warning")
  {
  }

  ghost predicate Warns(engine: A.State) {
    forall a :: OutageKey(a) in engine.active ==> engine.active[OutageKey(a)].body.severity == "warning"
  }

  lemma ProcessWarns(engine: A.State, e: A.Event, silenced: bool, w: A.Writes)
    requires Warns(engine)
    requires e.key.entityType == AGENT ==> e.recover || e.body.severity == "warning"
    ensures Warns(A.Process(engine, e, silenced, w))
  {
  }

  /** Every active "disconnected" alert of a run is a warning. */
  lemma {:induction false} OutagesAreWarnings(engine: A.State, events: seq<Event>)
    requires forall a :: OutageKey(a) !in engine.active
    requires forall i :: 0 <= i < |events| ==> Foreign(events[i])
    ensures Warns(RunAll(engine, events).engine)
  {
    if events != [] {
      var n := |events| - 1;
      var s := RunAll(engine, events[..n]);
      OutagesAreWarnings(engine, events[..n]);
      match events[n]
      case Session(op, name) =>
        OneCall(s.sessions, op);
        var calls := NewCalls(s.sessions, Apply(s.sessions, op));
        if |calls| == 1 {
          assert calls[1..] == [];
          var e := LifecycleEvent(calls[0], name);
          ProcessWarns(s.engine, e, false, A.ALL_OK);
          assert Deliver(s.engine, calls, name) == Deliver(A.Process(s.engine, e, false, A.ALL_OK), calls[1..], name);
        }
      case Other(o) => if o.Deliver? { ProcessWarns(s.engine, o.event, o.silenced, o.writes); }
    }
  }

  // ------------------------------------------------------------- once-only announcing

  function Outages(calls: seq<Call>, agent: string): nat {
    if calls == [] then 0
    else
      var n := |calls| - 1;
      Outages(calls[..n], agent) + (if IsOutage(calls[n]) && calls[n].agent == agent then 1 else 0)
  }

  predicate Rearms(op: Op, agent: string) {
    (op.DoOpen? && op.agent == agent) || (op.DoClose? && op.agent == agent && Terminal(op.reason))
  }

  function Offline(st: State, agent: string): nat { if agent in st.offline then 1 else 0 }

  lemma StepAnnounces(st: State, op: Op, agent: string)
    requires RegistryOk(st) && !Rearms(op, agent)
    ensures Outages(Apply(st, op).calls, agent) + Offline(st, agent) == Outages(st.calls, agent) + Offline(Apply(st, op), agent)
  {
    var st' := Apply(st, op);
    if st'.calls != st.calls {
      assert st'.calls[..|st.calls|] == st.calls && |st'.calls| == |st.calls| + 1;
    }
  }

  /** Between two points of a run with no connect, revoke or delete of the agent in between,
      its outage is announced exactly as often as it newly became offline: at most once. */
  lemma {:induction false} OutageAnnouncedOnce(ops: seq<Op>, agent: string, i: nat, j: nat)
    requires i <= j <= |ops|
    requires forall k :: i <= k < j ==> !Rearms(ops[k], agent)
    ensures var before, after := Run(ops[..i]), Run(ops[..j]);
      && Outages(after.calls, agent) + Offline(before, agent) == Outages(before.calls, agent) + Offline(after, agent)
      && Outages(after.calls, agent) <= Outages(before.calls, agent) + 1
    decreases j
  {
    if i < j {
      OutageAnnouncedOnce(ops, agent, i, j - 1);
      EveryStreamRegisteredOrReleased(ops[..j - 1]);
      assert ops[..j][..j - 1] == ops[..j - 1];
      StepAnnounces(Run(ops[..j - 1]), ops[j - 1], agent);
    }
  }
}
