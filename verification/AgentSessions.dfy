/**
 The registry of connected agent streams. Opening a stream replaces the previous one of the
 same agent; tokens keep a superseded handler from closing its successor; the stale sweep
 reaps dead streams and announces absent agents. One method call is one step.
 */
module AgentSessions {
  import opened Options

  // Why a stream context ended. `Ended` is the transport's own end, not the registry's.
  datatype Cause = Revoked | Replaced | Stale | Closed | Ended

  function CauseForReason(reason: string): Cause {
    if reason == "revoked" || reason == "deleted" then Revoked
    else if reason == "stale" then Stale
    else Closed
  }

  predicate Terminal(reason: string) {
    reason == "revoked" || reason == "deleted"
  }

  // `released` says that the waiters for command replies were let go.
  datatype Stream = Stream(agent: string, connectedAt: int, cause: Option<Cause>, released: bool)

  // One invocation of the lifecycle hook.
  datatype Call = Call(agent: string, reason: string, connected: bool)

  datatype State = State(
    active: map<string, nat>,
    streams: map<nat, Stream>,
    next: nat,
    offline: set<string>,
    calls: seq<Call>)

  const EMPTY := State(map[], map[], 0, {}, [])

  // A context keeps the first cause it is cancelled with.
  function Cancel(s: Stream, cause: Cause): Stream {
    if s.cause.None? then s.(cause := Some(cause)) else s
  }

  function TearDown(streams: map<nat, Stream>, sid: nat, cause: Cause): map<nat, Stream> {
    if sid in streams then streams[sid := Cancel(streams[sid], cause).(released := true)] else streams
  }

  // ---------------------------------------------------------------------- operations

  function Open(st: State, agent: string, now: int): State {
    var streams := if agent in st.active then TearDown(st.streams, st.active[agent], Replaced) else st.streams;
    State(st.active[agent := st.next], streams[st.next := Stream(agent, now, None, false)], st.next + 1,
          st.offline - {agent}, st.calls + [Call(agent, "", true)])
  }

  function Remove(st: State, agent: string, only: Option<nat>, reason: string): State {
    var had := agent in st.active;
    if had && only.Some? && st.active[agent] != only.value then st
    else
      var st' :=
        if had then st.(active := st.active - {agent}, streams := TearDown(st.streams, st.active[agent], CauseForReason(reason)))
        else st;
      if had || Terminal(reason) then
        st'.(offline := if Terminal(reason) then st.offline - {agent} else st.offline + {agent},
             calls := st.calls + [Call(agent, reason, false)])
      else st'
  }

  function Close(st: State, agent: string, reason: string): State {
    Remove(st, agent, None, reason)
  }

  function CloseStream(st: State, agent: string, token: Option<nat>, reason: string): State {
    if token.None? then st else Remove(st, agent, token, reason)
  }

  // The sweep's treatment of one agent the store reports as stale.
  function Reap(st: State, agent: string, settled: bool, sweepStart: int): State {
    var connected := agent in st.active && st.active[agent] in st.streams;
    if connected && st.streams[st.active[agent]].connectedAt > sweepStart then st
    else
      var st' := if connected then st.(active := st.active - {agent}, streams := TearDown(st.streams, st.active[agent], Stale)) else st;
      if connected || (settled && agent !in st.offline) then
        st'.(offline := st.offline + {agent}, calls := st.calls + [Call(agent, "stale", false)])
      else st'
  }

  // The client goes away: the stream context ends without the registry.
  function TransportEnds(st: State, sid: nat): State {
    if sid in st.streams then st.(streams := st.streams[sid := Cancel(st.streams[sid], Ended)]) else st
  }

  datatype Op =
    | DoOpen(agent: string, now: int)
    | DoClose(agent: string, reason: string)
    | DoCloseStream(agent: string, token: Option<nat>)
    | DoReap(agent: string, settled: bool, sweepStart: int)
    | DoTransportEnds(sid: nat)

  // The handler closes its own stream with the one reason it has.
  function Apply(st: State, op: Op): State {
    match op
    case DoOpen(agent, now) => Open(st, agent, now)
    case DoClose(agent, reason) => Close(st, agent, reason)
    case DoCloseStream(agent, token) => CloseStream(st, agent, token, "stream_ended")
    case DoReap(agent, settled, sweepStart) => Reap(st, agent, settled, sweepStart)
    case DoTransportEnds(sid) => TransportEnds(st, sid)
  }

  function Run(ops: seq<Op>): State {
    if ops == [] then EMPTY else Apply(Run(ops[..|ops| - 1]), ops[|ops| - 1])
  }

  // ----------------------------------------------------------------------- invariant

  predicate Registered(st: State, sid: nat) {
    sid in st.streams && st.streams[sid].agent in st.active && st.active[st.streams[sid].agent] == sid
  }

  ghost predicate RegistryOk(st: State) {
    && (forall sid :: sid in st.streams ==> sid < st.next)
    && (forall a :: a in st.active ==> st.active[a] in st.streams && st.streams[st.active[a]].agent == a)
    && (forall sid :: sid in st.streams && Registered(st, sid) ==>
          !st.streams[sid].released && (st.streams[sid].cause.Some? ==> st.streams[sid].cause.value == Ended))
    && (forall sid :: sid in st.streams && !Registered(st, sid) ==>
          st.streams[sid].cause.Some? && st.streams[sid].released)
    && (forall a :: a in st.active ==> a !in st.offline)
  }

  lemma OpenKeepsRegistry(st: State, agent: string, now: int)
    requires RegistryOk(st)
    ensures RegistryOk(Open(st, agent, now))
  {
  }

  lemma RemoveKeepsRegistry(st: State, agent: string, only: Option<nat>, reason: string)
    requires RegistryOk(st)
    ensures RegistryOk(Remove(st, agent, only, reason))
  {
  }

  lemma ReapKeepsRegistry(st: State, agent: string, settled: bool, sweepStart: int)
    requires RegistryOk(st)
    ensures RegistryOk(Reap(st, agent, settled, sweepStart))
  {
  }

  lemma EndKeepsRegistry(st: State, sid: nat)
    requires RegistryOk(st)
    ensures RegistryOk(TransportEnds(st, sid))
  {
  }

  lemma ApplyKeepsRegistry(st: State, op: Op)
    requires RegistryOk(st)
    ensures RegistryOk(Apply(st, op))
  {
    match op
    case DoOpen(agent, now) => OpenKeepsRegistry(st, agent, now);
    case DoClose(agent, reason) => RemoveKeepsRegistry(st, agent, None, reason);
    case DoCloseStream(agent, token) => RemoveKeepsRegistry(st, agent, token, "stream_ended");
    case DoReap(agent, settled, sweepStart) => ReapKeepsRegistry(st, agent, settled, sweepStart);
    case DoTransportEnds(sid) => EndKeepsRegistry(st, sid);
  }

  /** Every stream ever opened is the registered one of its agent, or has been cancelled
      and its waiters released; a registered agent is never marked offline. */
  lemma {:induction false} EveryStreamRegisteredOrReleased(ops: seq<Op>)
    ensures RegistryOk(Run(ops))
  {
    if ops != [] {
      EveryStreamRegisteredOrReleased(ops[..|ops| - 1]);
      ApplyKeepsRegistry(Run(ops[..|ops| - 1]), ops[|ops| - 1]);
    }
  }

  // A token that was handed out and is no longer the registered one.
  predicate Superseded(st: State, sid: nat) {
    sid < st.next && !Registered(st, sid)
  }

  lemma StepKeepsSuperseded(st: State, op: Op, sid: nat)
    requires RegistryOk(st) && Superseded(st, sid)
    ensures Superseded(Apply(st, op), sid)
  {
  }

  // No continuation brings a superseded stream back.
  lemma {:induction false} SupersededForGood(ops: seq<Op>, more: seq<Op>, sid: nat)
    requires Superseded(Run(ops), sid)
    ensures Superseded(Run(ops + more), sid)
  {
    if more == [] {
      assert ops + more == ops;
    } else {
      var n := |more| - 1;
      var before := ops + more[..n];
      SupersededForGood(ops, more[..n], sid);
      EveryStreamRegisteredOrReleased(before);
      assert (ops + more)[..|ops + more| - 1] == before;
      StepKeepsSuperseded(Run(before), more[n], sid);
    }
  }

  lemma CloseChangesIffRegistered(st: State, agent: string, sid: nat)
    requires RegistryOk(st)
    ensures CloseStream(st, agent, Some(sid), "stream_ended") != st <==> Registered(st, sid) && st.streams[sid].agent == agent
  {
    if Registered(st, sid) && st.streams[sid].agent == agent {
      assert agent !in CloseStream(st, agent, Some(sid), "stream_ended").active;
    }
  }

  /** Once a stream that was opened is no longer registered, whatever replaced or removed it,
      its handler's close changes nothing in any continuation of the run. Until then closing
      it does change the registry. */
  lemma SupersededCloseIsNoop(ops: seq<Op>, more: seq<Op>, agent: string, sid: nat)
    ensures Superseded(Run(ops), sid) ==>
      CloseStream(Run(ops + more), agent, Some(sid), "stream_ended") == Run(ops + more)
    ensures Registered(Run(ops), sid) ==>
      CloseStream(Run(ops), Run(ops).streams[sid].agent, Some(sid), "stream_ended") != Run(ops)
  {
    EveryStreamRegisteredOrReleased(ops);
    EveryStreamRegisteredOrReleased(ops + more);
    if Superseded(Run(ops), sid) {
      SupersededForGood(ops, more, sid);
      CloseChangesIffRegistered(Run(ops + more), agent, sid);
    }
    if Registered(Run(ops), sid) {
      CloseChangesIffRegistered(Run(ops), Run(ops).streams[sid].agent, sid);
    }
  }

  // --------------------------------------------------------------- how a Push ends

  // What the handler reports once its stream context is done.
  function PushStatus(cause: Cause): string {
    if cause == Revoked then "agent_revoked" else "session_closed"
  }

  // Step i of the run revokes or deletes the agent while this stream is registered and its
  // transport is still up.
  ghost predicate TornDownAt(ops: seq<Op>, sid: nat, i: nat) {
    && i < |ops| && ops[i].DoClose? && Terminal(ops[i].reason)
    && Registered(Run(ops[..i]), sid) && Run(ops[..i]).streams[sid].agent == ops[i].agent
    && Run(ops[..i]).streams[sid].cause.None?
  }

  // One step gives a stream the revoked cause exactly when it tears it down so.
  lemma StepRevokes(st: State, op: Op, sid: nat)
    requires RegistryOk(st)
    ensures sid in st.streams ==> sid in Apply(st, op).streams && Apply(st, op).streams[sid].agent == st.streams[sid].agent
    ensures sid in Apply(st, op).streams && Apply(st, op).streams[sid].cause == Some(Revoked) <==>
      sid in st.streams &&
      (st.streams[sid].cause == Some(Revoked) ||
       (op.DoClose? && Terminal(op.reason) && Registered(st, sid) && st.streams[sid].agent == op.agent && st.streams[sid].cause.None?))
  {
  }

  /** The cause a handler finds when it acts on its cancelled stream makes it answer
      "agent_revoked" if and only if a revoke or delete tore the stream down while it was the
      registered one, before its transport ended by itself. */
  lemma {:induction false} RevokedExactlyWhenTornDown(ops: seq<Op>, sid: nat)
    ensures sid in Run(ops).streams && Run(ops).streams[sid].cause == Some(Revoked) <==> exists i :: TornDownAt(ops, sid, i)
    ensures sid in Run(ops).streams && Run(ops).streams[sid].cause.Some? ==>
      PushStatus(Run(ops).streams[sid].cause.value) ==
        if exists i :: TornDownAt(ops, sid, i) then "agent_revoked" else "session_closed"
  {
    if ops != [] {
      var n := |ops| - 1;
      var prefix := ops[..n];
      RevokedExactlyWhenTornDown(prefix, sid);
      EveryStreamRegisteredOrReleased(prefix);
      StepRevokes(Run(prefix), ops[n], sid);
      forall i: nat ensures TornDownAt(prefix, sid, i) ==> TornDownAt(ops, sid, i)
        ensures TornDownAt(ops, sid, i) ==> i == n || TornDownAt(prefix, sid, i) {
        if i < n { assert prefix[..i] == ops[..i]; }
      }
      assert TornDownAt(ops, sid, n) <==>
        ops[n].DoClose? && Terminal(ops[n].reason) && Registered(Run(prefix), sid)
        && Run(prefix).streams[sid].agent == ops[n].agent && Run(prefix).streams[sid].cause.None?;
    }
  }

  // -------------------------------------------------------------------- the registry

  // A sweep treats the listed agents one after the other.
  function Sweep(st: State, ids: seq<string>, settled: bool, sweepStart: int): State {
    if ids == [] then st else Reap(Sweep(st, ids[..|ids| - 1], settled, sweepStart), ids[|ids| - 1], settled, sweepStart)
  }

  // The hook calls about one agent.
  function CallsOf(calls: seq<Call>, agent: string): seq<Call> {
    if calls == [] then []
    else
      var n := |calls| - 1;
      CallsOf(calls[..n], agent) + if calls[n].agent == agent then [calls[n]] else []
  }

  lemma CallsSnoc(calls: seq<Call>, c: Call, agent: string)
    ensures CallsOf(calls + [c], agent) == CallsOf(calls, agent) + if c.agent == agent then [c] else []
  {
    assert (calls + [c])[..|calls|] == calls;
  }

  // The two states hold the same about an agent, its registered stream and its calls.
  ghost predicate SameFor(st: State, st': State, agent: string) {
    && (agent in st.active <==> agent in st'.active)
    && (agent in st.active && st.active[agent] in st.streams ==>
          st'.active[agent] == st.active[agent] && st.active[agent] in st'.streams
          && st'.streams[st.active[agent]] == st.streams[st.active[agent]])
    && (agent in st.offline <==> agent in st'.offline)
    && CallsOf(st'.calls, agent) == CallsOf(st.calls, agent)
  }

  // The stream was torn down with this cause, unless it had ended before.
  ghost predicate Dead(st: State, st': State, sid: nat, cause: Cause) {
    && sid in st.streams && sid in st'.streams && st'.streams[sid].released
    && st'.streams[sid].cause == if st.streams[sid].cause.None? then Some(cause) else st.streams[sid].cause
  }

  ghost predicate OlderThan(st: State, agent: string, sweepStart: int) {
    agent in st.active && st.active[agent] in st.streams && st.streams[st.active[agent]].connectedAt <= sweepStart
  }

  lemma ReapOther(st: State, agent: string, settled: bool, sweepStart: int, other: string)
    requires RegistryOk(st) && other != agent
    ensures SameFor(st, Reap(st, agent, settled, sweepStart), other)
  {
    CallsSnoc(st.calls, Call(agent, "stale", false), other);
  }

  lemma ReapOwn(st: State, agent: string, settled: bool, sweepStart: int)
    requires RegistryOk(st)
    ensures var st' := Reap(st, agent, settled, sweepStart);
      if OlderThan(st, agent, sweepStart) then
        && agent !in st'.active && Dead(st, st', st.active[agent], Stale) && agent in st'.offline
        && CallsOf(st'.calls, agent) == CallsOf(st.calls, agent) + [Call(agent, "stale", false)]
      else if agent !in st.active && settled && agent !in st.offline then
        && agent !in st'.active && agent in st'.offline
        && CallsOf(st'.calls, agent) == CallsOf(st.calls, agent) + [Call(agent, "stale", false)]
      else SameFor(st, st', agent)
  {
    CallsSnoc(st.calls, Call(agent, "stale", false), agent);
  }

  lemma ReapKeepsStream(st: State, agent: string, settled: bool, sweepStart: int, sid: nat)
    requires RegistryOk(st) && sid in st.streams && !(agent in st.active && st.active[agent] == sid)
    ensures var st' := Reap(st, agent, settled, sweepStart); sid in st'.streams && st'.streams[sid] == st.streams[sid]
  {
  }

  // What a sweep has done to one agent.
  ghost predicate Swept(st: State, st': State, listed: bool, agent: string, settled: bool, sweepStart: int) {
    if listed && OlderThan(st, agent, sweepStart) then
      && agent !in st'.active && Dead(st, st', st.active[agent], Stale) && agent in st'.offline
      && CallsOf(st'.calls, agent) == CallsOf(st.calls, agent) + [Call(agent, "stale", false)]
    else if listed && agent !in st.active && settled && agent !in st.offline then
      && agent !in st'.active && agent in st'.offline
      && CallsOf(st'.calls, agent) == CallsOf(st.calls, agent) + [Call(agent, "stale", false)]
    else SameFor(st, st', agent)
  }

  lemma SweptOther(st: State, mid: State, listed: bool, a: string, settled: bool, sweepStart: int, agent: string)
    requires RegistryOk(st) && RegistryOk(mid) && Swept(st, mid, listed, agent, settled, sweepStart) && a != agent
    ensures Swept(st, Reap(mid, a, settled, sweepStart), listed, agent, settled, sweepStart)
  {
    ReapOther(mid, a, settled, sweepStart, agent);
    if listed && OlderThan(st, agent, sweepStart) {
      assert mid.active.Keys !! {agent};
      ReapKeepsStream(mid, a, settled, sweepStart, st.active[agent]);
    }
  }

  // Listing an agent twice makes no difference.
  lemma SweptOwn(st: State, mid: State, listed: bool, settled: bool, sweepStart: int, agent: string)
    requires RegistryOk(st) && RegistryOk(mid) && Swept(st, mid, listed, agent, settled, sweepStart)
    ensures Swept(st, Reap(mid, agent, settled, sweepStart), true, agent, settled, sweepStart)
  {
    ReapOwn(mid, agent, settled, sweepStart);
    if listed && OlderThan(st, agent, sweepStart) {
      ReapKeepsStream(mid, agent, settled, sweepStart, st.active[agent]);
    }
  }

  /** From any state of the registry and for any list of agents, a sweep tears down exactly
      the listed streams that are not younger than it, with the cause "stale" unless they had
      ended before, marks their agents offline and announces each once; it announces a listed
      agent without a stream exactly when it is settled and the agent not reported yet; and it
      leaves every other agent as it was. */
  lemma {:induction false} SweepSettles(st: State, ids: seq<string>, settled: bool, sweepStart: int, agent: string)
    requires RegistryOk(st)
    ensures RegistryOk(Sweep(st, ids, settled, sweepStart))
    ensures Swept(st, Sweep(st, ids, settled, sweepStart), agent in ids, agent, settled, sweepStart)
  {
    if ids != [] {
      var n := |ids| - 1;
      var prefix, a := ids[..n], ids[n];
      var mid := Sweep(st, prefix, settled, sweepStart);
      SweepSettles(st, prefix, settled, sweepStart, agent);
      ReapKeepsRegistry(mid, a, settled, sweepStart);
      assert ids == prefix + [a];
      if a == agent {
        SweptOwn(st, mid, agent in prefix, settled, sweepStart, agent);
      } else {
        SweptOther(st, mid, agent in prefix, a, settled, sweepStart, agent);
      }
    }
  }

  /** A stream opened at `now` survives every sweep that began before and falls to every sweep
      that lists its agent from then on, until something else happens to it. */
  lemma OpenedStreamAndSweep(st: State, agent: string, now: int, ids: seq<string>, settled: bool, sweepStart: int)
    requires RegistryOk(st)
    ensures var st1 := Open(st, agent, now);
      var swept := Sweep(st1, ids, settled, sweepStart);
      && agent !in st1.offline && CallsOf(st1.calls, agent) == CallsOf(st.calls, agent) + [Call(agent, "", true)]
      && (agent in st.active ==> Dead(st, st1, st.active[agent], Replaced))
      && (agent in swept.active <==> now > sweepStart || agent !in ids)
      && (agent in swept.active ==> swept.active[agent] == st.next)
      && (agent !in swept.active ==> Dead(st1, swept, st.next, Stale) && agent in swept.offline)
  {
    OpenKeepsRegistry(st, agent, now);
    CallsSnoc(st.calls, Call(agent, "", true), agent);
    SweepSettles(Open(st, agent, now), ids, settled, sweepStart, agent);
  }

  /** Closing an agent, by whatever reason: a registered stream is torn down, with the cause
      its reason stands for, and announced; a revoke or delete is announced even without one
      and clears the offline mark, any other closing of a stream sets it. */
  lemma CloseSettles(st: State, agent: string, reason: string)
    requires RegistryOk(st)
    ensures var st' := Close(st, agent, reason);
      var gone := reason == "revoked" || reason == "deleted";
      && agent !in st'.active
      && (agent in st.active ==>
            Dead(st, st', st.active[agent], if gone then Revoked else if reason == "stale" then Stale else Closed))
      && (agent in st'.offline <==> !gone && (agent in st.active || agent in st.offline))
      && CallsOf(st'.calls, agent) == CallsOf(st.calls, agent) + (if gone || agent in st.active then [Call(agent, reason, false)] else [])
      && (forall other :: other != agent ==> SameFor(st, st', other))
  {
    CallsSnoc(st.calls, Call(agent, reason, false), agent);
    forall other | other != agent ensures SameFor(st, Close(st, agent, reason), other) {
      CloseOther(st, agent, reason, other);
    }
  }

  /** A handler closes what it holds: with the token of the registered stream its close is that
      of the agent, with any other token, or none, it leaves a registered stream alone. */
  lemma OwnCloseSettles(st: State, agent: string, token: Option<nat>, reason: string)
    requires agent in st.active
    ensures CloseStream(st, agent, token, reason) == if token == Some(st.active[agent]) then Close(st, agent, reason) else st
  {
  }

  lemma CloseOther(st: State, agent: string, reason: string, other: string)
    requires RegistryOk(st) && other != agent
    ensures SameFor(st, Close(st, agent, reason), other)
  {
    CallsSnoc(st.calls, Call(agent, reason, false), other);
  }

  class Sessions {
    var active: map<string, nat>
    var streams: map<nat, Stream>
    var next: nat
    var offline: set<string>
    var calls: seq<Call>

    function View(): State
      reads this
    {
      State(active, streams, next, offline, calls)
    }

    constructor ()
      ensures View() == EMPTY && RegistryOk(View())
    {
      active, streams, next, offline, calls := map[], map[], 0, {}, [];
    }

    method OpenStream(agent: string, now: int) returns (token: nat)
      requires RegistryOk(View())
      modifies this
      ensures View() == Open(old(View()), agent, now) && RegistryOk(View())
      ensures token == old(next) && Registered(View(), token)
    {
      OpenKeepsRegistry(View(), agent, now);
      var st := Stream(agent, now, None, false);
      if agent in active {
        var existing := active[agent];
        streams := streams[existing := Cancel(streams[existing], Replaced).(released := true)];
      }
      offline := offline - {agent};
      token := next;
      streams, active, next := streams[token := st], active[agent := token], next + 1;
      calls := calls + [Call(agent, "", true)];
    }

    method RemoveStream(agent: string, only: Option<nat>, reason: string)
      requires RegistryOk(View())
      modifies this
      ensures View() == Remove(old(View()), agent, only, reason) && RegistryOk(View())
    {
      RemoveKeepsRegistry(View(), agent, only, reason);
      Unregister(agent, only, reason);
    }

    method CloseAgent(agent: string, reason: string)
      requires RegistryOk(View())
      modifies this
      ensures View() == Close(old(View()), agent, reason) && RegistryOk(View())
    {
      RemoveStream(agent, None, reason);
    }

    // A handler that never got a token closes nothing.
    method CloseOwnStream(agent: string, token: Option<nat>, reason: string)
      requires RegistryOk(View())
      modifies this
      ensures View() == CloseStream(old(View()), agent, token, reason) && RegistryOk(View())
    {
      if token.None? {
        return;
      }
      RemoveStream(agent, token, reason);
    }

    // The body of a removal, before the invariant is restored.
    method Unregister(agent: string, only: Option<nat>, reason: string)
      requires agent in active ==> active[agent] in streams
      modifies this
      ensures View() == Remove(old(View()), agent, only, reason)
    {
      var had := agent in active;
      if had && only.Some? && active[agent] != only.value {
        return;
      }
      if had {
        var sid := active[agent];
        streams := streams[sid := Cancel(streams[sid], CauseForReason(reason))];
        active := active - {agent};
        streams := streams[sid := streams[sid].(released := true)];
      }
      if had || Terminal(reason) {
        if Terminal(reason) {
          offline := offline - {agent};
        } else {
          offline := offline + {agent};
        }
        calls := calls + [Call(agent, reason, false)];
      }
    }

    method SweepStale(ids: seq<string>, settled: bool, sweepStart: int)
      requires RegistryOk(View())
      modifies this
      ensures View() == Sweep(old(View()), ids, settled, sweepStart) && RegistryOk(View())
      ensures forall agent :: Swept(old(View()), View(), agent in ids, agent, settled, sweepStart)
    {
      ghost var st := View();
      for i := 0 to |ids|
        invariant RegistryOk(View())
        invariant View() == Sweep(old(View()), ids[..i], settled, sweepStart)
      {
        assert ids[..i + 1][..i] == ids[..i];
        ReapOne(ids[i], settled, sweepStart);
      }
      assert ids[..|ids|] == ids;
      forall agent ensures Swept(st, View(), agent in ids, agent, settled, sweepStart) {
        SweepSettles(st, ids, settled, sweepStart, agent);
      }
    }

    method ReapOne(agent: string, settled: bool, sweepStart: int)
      requires RegistryOk(View())
      modifies this
      ensures View() == Reap(old(View()), agent, settled, sweepStart) && RegistryOk(View())
    {
      ReapKeepsRegistry(View(), agent, settled, sweepStart);
      UnregisterStale(agent, settled, sweepStart);
    }

    method UnregisterStale(agent: string, settled: bool, sweepStart: int)
      requires agent in active ==> active[agent] in streams
      modifies this
      ensures View() == Reap(old(View()), agent, settled, sweepStart)
    {
      var connected := agent in active;
      if connected && streams[active[agent]].connectedAt > sweepStart {
        return;
      }
      if connected {
        var sid := active[agent];
        streams := streams[sid := Cancel(streams[sid], Stale).(released := true)];
        active := active - {agent};
      }
      if connected || (settled && agent !in offline) {
        offline := offline + {agent};
        calls := calls + [Call(agent, "stale", false)];
      }
    }
  }
}
