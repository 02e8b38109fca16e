/**
 Heartbeat monitors and the alerts they raise. Pings, exit codes, deadline sweeps, pauses,
 resumes and deletions update the monitor, its executions and, through the wiring, the
 alert engine. Every write of the heartbeat store and of the alert store may fail.
 */
module Heartbeat {
  import opened Options
  import A = AlertEngine

  datatype Status = New | Up | Down | Started | Paused

  datatype Monitor = Monitor(
    name: string, status: Status, alerting: bool, enabled: bool, period: nat,
    runStarted: Option<int>, deadline: Option<int>, failures: nat, successes: nat)

  datatype Outcome = Success | Failure | Timeout | InProgress

  datatype Exec = Exec(monitor: string, outcome: Outcome)

  datatype State = State(monitors: map<string, Monitor>, execs: map<nat, Exec>, nextExec: nat, engine: A.State)

  // Which heartbeat writes succeed: the execution update, the execution insert, the state.
  datatype Writes = Writes(updateExec: bool, insertExec: bool, state: bool)

  // How the engine meets the events of one callback.
  datatype Delivery = Delivery(silenced: bool, first: A.Writes, second: A.Writes)

  const HEARTBEAT: string := "heartbeat"
  const DEADLINE_MISSED: string := "deadline_missed"
  const EXIT_CODE_FAILURE: string := "exit_code_failure"

  function MissedKey(id: string): A.Key { A.Key(HEARTBEAT, DEADLINE_MISSED, HEARTBEAT, id) }
  function FailedKey(id: string): A.Key { A.Key(HEARTBEAT, EXIT_CODE_FAILURE, HEARTBEAT, id) }

  // --------------------------------------------------------------------- executions

  predicate Running(execs: map<nat, Exec>, id: string, x: nat) {
    x in execs && execs[x].monitor == id && execs[x].outcome == InProgress
  }

  // The latest in-progress execution with a number below n.
  function Latest(execs: map<nat, Exec>, id: string, n: nat): (r: Option<nat>)
    ensures r.Some? ==> Running(execs, id, r.value)
    ensures r.None? ==> forall x: nat :: x < n ==> !Running(execs, id, x)
  {
    if n == 0 then None
    else if Running(execs, id, n - 1) then Some(n - 1)
    else Latest(execs, id, n - 1)
  }

  function Current(st: State, id: string): Option<nat> { Latest(st.execs, id, st.nextExec) }

  // Closes the current execution, if there is one and the update reaches the store.
  function CloseCurrent(st: State, id: string, outcome: Outcome, ok: bool): State {
    var x := Current(st, id);
    if x.Some? && ok then st.(execs := st.execs[x.value := Exec(id, outcome)]) else st
  }

  function Record(st: State, id: string, outcome: Outcome, ok: bool): State {
    if ok then st.(execs := st.execs[st.nextExec := Exec(id, outcome)], nextExec := st.nextExec + 1) else st
  }

  // ---------------------------------------------------------------- the alert wiring

  function EventFor(key: A.Key, m: Monitor, recover: bool): A.Event {
    A.Event(key, A.Body(if recover then "info" else "critical", m.name, m.name, "{}"), recover)
  }

  // A recovery clears both failure keys.
  function Recovered(engine: A.State, id: string, m: Monitor, d: Delivery): A.State {
    A.Process(A.Process(engine, EventFor(MissedKey(id), m, true), d.silenced, d.first),
              EventFor(FailedKey(id), m, true), d.silenced, d.second)
  }

  function Alerted(engine: A.State, key: A.Key, m: Monitor, d: Delivery): A.State {
    A.Process(engine, EventFor(key, m, false), d.silenced, d.first)
  }

  // --------------------------------------------------------------------- operations

  predicate Known(st: State, id: string) { id in st.monitors && st.monitors[id].enabled }

  // A completion ping closes a started run; any other ping is an execution of its own.
  function PingExecs(st: State, id: string, w: Writes): State
    requires id in st.monitors
  {
    var m := st.monitors[id];
    if m.status == Started && m.runStarted.Some? then CloseCurrent(st, id, Success, w.updateExec)
    else Record(st, id, Success, w.insertExec)
  }

  function Ping(st: State, id: string, now: int, w: Writes, d: Delivery): State {
    if !Known(st, id) then st
    else
      var m := st.monitors[id];
      var recovering := m.status == Down || m.alerting;
      var st' := PingExecs(st, id, w);
      if !w.state then st'
      else
        var m' := m.(status := Up, alerting := m.alerting && !recovering, deadline := Some(now + m.period),
                     successes := m.successes + 1, failures := 0,
                     runStarted := if m.status == Started then None else m.runStarted);
        st'.(monitors := st.monitors[id := m'],
             engine := if recovering then Recovered(st.engine, id, m, d) else st.engine)
  }

  // A start ping times out the run it interrupts and opens a new one.
  function StartExecs(st: State, id: string, w: Writes): State {
    Record(CloseCurrent(st, id, Timeout, w.updateExec), id, InProgress, w.insertExec)
  }

  function StartPing(st: State, id: string, now: int, w: Writes): State {
    if !Known(st, id) then st
    else
      var m := st.monitors[id];
      var st' := StartExecs(st, id, w);
      if !w.state then st'
      else st'.(monitors := st.monitors[id := m.(status := Started, deadline := Some(now + m.period), runStarted := Some(now))])
  }

  function ExitExecs(st: State, id: string, outcome: Outcome, w: Writes): State {
    if Current(st, id).Some? then CloseCurrent(st, id, outcome, w.updateExec) else Record(st, id, outcome, w.insertExec)
  }

  function ExitPing(st: State, id: string, code: int, now: int, w: Writes, d: Delivery): State {
    if code < 0 || code > 255 || !Known(st, id) then st
    else
      var m := st.monitors[id];
      var st' := ExitExecs(st, id, if code == 0 then Success else Failure, w);
      if !w.state then st'
      else
        var m' := m.(status := Up, alerting := code != 0, deadline := Some(now + m.period),
                     failures := if code == 0 then 0 else m.failures + 1,
                     successes := if code == 0 then m.successes + 1 else 0,
                     runStarted := if m.status == Started then None else m.runStarted);
        var engine :=
          if code != 0 then Alerted(st.engine, FailedKey(id), m, d)
          else if m.status == Down || m.alerting then Recovered(st.engine, id, m, d)
          else st.engine;
        st'.(monitors := st.monitors[id := m'], engine := engine)
  }

  predicate Overdue(m: Monitor, now: int) {
    m.enabled && (m.status == Up || m.status == Started) && m.deadline.Some? && m.deadline.value < now
  }

  function MissDeadline(st: State, id: string, w: Writes, d: Delivery): State {
    if id !in st.monitors || !w.state then st
    else
      var m := st.monitors[id];
      var m' := m.(status := Down, alerting := true, failures := m.failures + 1, successes := 0);
      var st' := if m.status == Started then CloseCurrent(st, id, Timeout, w.updateExec) else st;
      st'.(monitors := st.monitors[id := m'], engine := Alerted(st.engine, MissedKey(id), m', d))
  }

  function Pause(st: State, id: string, ok: bool, failed: set<A.Key>): State {
    if id !in st.monitors || !ok then st
    else st.(monitors := st.monitors[id := st.monitors[id].(status := Paused, alerting := false, deadline := None)],
             engine := A.ResolveByEntity(st.engine, HEARTBEAT, id, failed))
  }

  function Resume(st: State, id: string, now: int, ok: bool): State {
    if id !in st.monitors || st.monitors[id].status != Paused || !ok then st
    else st.(monitors := st.monitors[id := st.monitors[id].(status := Up, deadline := Some(now + st.monitors[id].period))])
  }

  function Delete(st: State, id: string, ok: bool, failed: set<A.Key>): State {
    if id !in st.monitors || !ok then st
    else st.(monitors := st.monitors[id := st.monitors[id].(enabled := false)],
             engine := A.ResolveByEntity(st.engine, HEARTBEAT, id, failed))
  }

  datatype Op =
    | DoPing(id: string, now: int, w: Writes, d: Delivery)
    | DoStart(id: string, now: int, w: Writes)
    | DoExit(id: string, code: int, now: int, w: Writes, d: Delivery)
    | DoMiss(id: string, now: int, w: Writes, d: Delivery)
    | DoPause(id: string, ok: bool, failed: set<A.Key>)
    | DoResume(id: string, now: int, ok: bool)
    | DoDelete(id: string, ok: bool, failed: set<A.Key>)
    | Other(op: A.Op)

  // What else reaches the engine is not about heartbeats.
  predicate Foreign(op: Op) {
    op.Other? ==>
      match op.op
      case Deliver(e, _, _) => e.key.entityType != HEARTBEAT
      case RemoveEntity(t, _, _) => t != HEARTBEAT
  }

  // A sweep is a sequence of missed deadlines of the monitors listed as overdue.
  function Apply(st: State, op: Op): State {
    match op
    case DoPing(id, now, w, d) => Ping(st, id, now, w, d)
    case DoStart(id, now, w) => StartPing(st, id, now, w)
    case DoExit(id, code, now, w, d) => ExitPing(st, id, code, now, w, d)
    case DoMiss(id, now, w, d) => if id in st.monitors && Overdue(st.monitors[id], now) then MissDeadline(st, id, w, d) else st
    case DoPause(id, ok, failed) => Pause(st, id, ok, failed)
    case DoResume(id, now, ok) => Resume(st, id, now, ok)
    case DoDelete(id, ok, failed) => Delete(st, id, ok, failed)
    case Other(o) => st.(engine := A.Apply(st.engine, o))
  }

  function Run(st: State, ops: seq<Op>): State {
    if ops == [] then st else Apply(Run(st, ops[..|ops| - 1]), ops[|ops| - 1])
  }

  // ------------------------------------------------------------------ alert invariant

  predicate Raised(engine: A.State, id: string) {
    MissedKey(id) in engine.active || FailedKey(id) in engine.active
  }

  // An active alert implies an alerting monitor, whatever writes fail.
  ghost predicate AlertsAreJustified(st: State) {
    forall id :: Raised(st.engine, id) ==> id in st.monitors && st.monitors[id].alerting
  }

  // What processing one event does to another key, and to its own.
  lemma ProcessTouchesOneKey(engine: A.State, e: A.Event, silenced: bool, w: A.Writes)
    ensures var after := A.Process(engine, e, silenced, w);
      && (forall k :: k != e.key ==> SameKey(engine, after, k))
      && (e.recover ==> e.key !in after.active)
      && (!e.recover && !silenced && w.insert ==> e.key in after.active)
  {
  }

  // The engine tracks the same alert, or none, under a key.
  ghost predicate SameKey(engine: A.State, after: A.State, k: A.Key) {
    (k in engine.active <==> k in after.active) && (k in engine.active ==> after.active[k] == engine.active[k])
  }

  lemma RecoveredClears(engine: A.State, id: string, m: Monitor, d: Delivery)
    ensures !Raised(Recovered(engine, id, m, d), id)
    ensures forall other :: other != id ==> (Raised(Recovered(engine, id, m, d), other) <==> Raised(engine, other))
  {
    var e1, e2 := EventFor(MissedKey(id), m, true), EventFor(FailedKey(id), m, true);
    ProcessTouchesOneKey(engine, e1, d.silenced, d.first);
    ProcessTouchesOneKey(A.Process(engine, e1, d.silenced, d.first), e2, d.silenced, d.second);
  }

  lemma AlertedRaises(engine: A.State, key: A.Key, id: string, m: Monitor, d: Delivery)
    requires key == MissedKey(id) || key == FailedKey(id)
    ensures forall other :: other != id ==> (Raised(Alerted(engine, key, m, d), other) <==> Raised(engine, other))
    ensures !d.silenced && d.first.insert ==> Raised(Alerted(engine, key, m, d), id)
  {
    ProcessTouchesOneKey(engine, EventFor(key, m, false), d.silenced, d.first);
  }

  lemma ResolvedClears(engine: A.State, id: string, failed: set<A.Key>)
    ensures !Raised(A.ResolveByEntity(engine, HEARTBEAT, id, failed), id)
    ensures forall other :: other != id ==> (Raised(A.ResolveByEntity(engine, HEARTBEAT, id, failed), other) <==> Raised(engine, other))
  {
  }

  // Every write succeeds and no event is silenced.
  predicate Smooth(op: Op) {
    match op
    case DoPing(_, _, w, d) => w == Writes(true, true, true) && d == Delivery(false, A.ALL_OK, A.ALL_OK)
    case DoStart(_, _, w) => w == Writes(true, true, true)
    case DoExit(_, _, _, w, d) => w == Writes(true, true, true) && d == Delivery(false, A.ALL_OK, A.ALL_OK)
    case DoMiss(_, _, w, d) => w == Writes(true, true, true) && d == Delivery(false, A.ALL_OK, A.ALL_OK)
    case DoPause(_, ok, failed) => ok && failed == {}
    case DoResume(_, _, ok) => ok
    case DoDelete(_, ok, failed) => ok && failed == {}
    case Other(_) => true
  }

  // An active alert if and only if the monitor is live and alerting.
  ghost predicate AlertsAreExact(st: State) {
    forall id :: Raised(st.engine, id) <==> id in st.monitors && st.monitors[id].enabled && st.monitors[id].alerting
  }

  lemma PingKeepsAlerts(st: State, op: Op)
    requires AlertsAreJustified(st) && op.DoPing?
    ensures AlertsAreJustified(Apply(st, op))
    ensures AlertsAreExact(st) && Smooth(op) ==> AlertsAreExact(Apply(st, op))
  {
    var id := op.id;
    if id in st.monitors { RecoveredClears(st.engine, id, st.monitors[id], op.d); }
  }

  lemma ExitKeepsAlerts(st: State, op: Op)
    requires AlertsAreJustified(st) && op.DoExit?
    ensures AlertsAreJustified(Apply(st, op))
    ensures AlertsAreExact(st) && Smooth(op) ==> AlertsAreExact(Apply(st, op))
  {
    var id := op.id;
    if id in st.monitors {
      if op.code == 0 {
        RecoveredClears(st.engine, id, st.monitors[id], op.d);
      } else {
        AlertedRaises(st.engine, FailedKey(id), id, st.monitors[id], op.d);
      }
    }
  }

  lemma MissKeepsAlerts(st: State, op: Op)
    requires AlertsAreJustified(st) && op.DoMiss?
    ensures AlertsAreJustified(Apply(st, op))
    ensures AlertsAreExact(st) && Smooth(op) ==> AlertsAreExact(Apply(st, op))
  {
    var id := op.id;
    if id in st.monitors {
      var m := st.monitors[id];
      var m' := m.(status := Down, alerting := true, failures := m.failures + 1, successes := 0);
      AlertedRaises(st.engine, MissedKey(id), id, m', op.d);
    }
  }

  lemma OtherLeavesHeartbeats(engine: A.State, op: A.Op, id: string)
    requires Foreign(Other(op))
    ensures Raised(A.Apply(engine, op), id) <==> Raised(engine, id)
  {
    if op.Deliver? { ProcessTouchesOneKey(engine, op.event, op.silenced, op.writes); }
  }

  lemma ApplyKeepsAlerts(st: State, op: Op)
    requires AlertsAreJustified(st) && Foreign(op)
    ensures AlertsAreJustified(Apply(st, op))
    ensures AlertsAreExact(st) && Smooth(op) ==> AlertsAreExact(Apply(st, op))
  {
    match op
    case DoPing(_, _, _, _) => PingKeepsAlerts(st, op);
    case DoExit(_, _, _, _, _) => ExitKeepsAlerts(st, op);
    case DoMiss(_, _, _, _) => MissKeepsAlerts(st, op);
    case DoPause(id, _, failed) => ResolvedClears(st.engine, id, failed);
    case DoDelete(id, _, failed) => ResolvedClears(st.engine, id, failed);
    case Other(o) =>
      forall id ensures Raised(A.Apply(st.engine, o), id) <==> Raised(st.engine, id) {
        OtherLeavesHeartbeats(st.engine, o, id);
      }
    case _ =>
  }

  /** Over every run, failing writes, silencing and other engine traffic included, the engine
      holds an active heartbeat alert only while the monitor is alerting; when no heartbeat
      event fails or is silenced, exactly while it is live and alerting. */
  lemma {:induction false} AlertsFollowMonitors(st: State, ops: seq<Op>)
    requires AlertsAreJustified(st) && forall i :: 0 <= i < |ops| ==> Foreign(ops[i])
    ensures AlertsAreJustified(Run(st, ops))
    ensures AlertsAreExact(st) && (forall i :: 0 <= i < |ops| ==> Smooth(ops[i])) ==> AlertsAreExact(Run(st, ops))
  {
    if ops != [] {
      var n := |ops| - 1;
      AlertsFollowMonitors(st, ops[..n]);
      ApplyKeepsAlerts(Run(st, ops[..n]), ops[n]);
    }
  }

  /** Hence a successful ping, or exit code 0, leaves neither failure key active. */
  lemma SuccessClearsBothKeys(st: State, ops: seq<Op>, op: Op)
    requires AlertsAreJustified(st) && forall i :: 0 <= i < |ops| ==> Foreign(ops[i])
    requires (op.DoPing? || (op.DoExit? && op.code == 0)) && op.w.state && Known(Run(st, ops), op.id)
    ensures var st' := Apply(Run(st, ops), op);
      !Raised(st'.engine, op.id) && st'.monitors[op.id].status == Up && !st'.monitors[op.id].alerting
  {
    AlertsFollowMonitors(st, ops);
    ApplyKeepsAlerts(Run(st, ops), op);
  }

  // ------------------------------------------------------------- which key tells what

  // What an operation says about the reason `key`: raised, cleared, or nothing.
  function Says(st: State, op: Op, id: string, missed: bool): Option<bool> {
    match op
    case DoPing(x, _, _, _) => if x == id && Known(st, id) then Some(false) else None
    case DoExit(x, code, _, _, _) =>
      if x != id || !Known(st, id) || code < 0 || code > 255 then None
      else if code == 0 then Some(false)
      else if missed then None
      else Some(true)
    case DoMiss(x, now, _, _) =>
      if missed && x == id && id in st.monitors && Overdue(st.monitors[id], now) then Some(true) else None
    case DoPause(x, _, _) => if x == id && id in st.monitors then Some(false) else None
    case DoDelete(x, _, _) => if x == id && id in st.monitors then Some(false) else None
    case _ => None
  }

  function Standing(st: State, ops: seq<Op>, id: string, missed: bool): bool {
    if ops == [] then false
    else
      var n := |ops| - 1;
      var s := Says(Run(st, ops[..n]), ops[n], id, missed);
      if s.Some? then s.value else Standing(st, ops[..n], id, missed)
  }

  function KeyOf(id: string, missed: bool): A.Key { if missed then MissedKey(id) else FailedKey(id) }

  ghost predicate Critical(engine: A.State, k: A.Key) {
    k in engine.active ==> engine.active[k].body.severity == "critical"
  }

  lemma AlertedKey(engine: A.State, key: A.Key, m: Monitor, d: Delivery, k: A.Key)
    requires d == Delivery(false, A.ALL_OK, A.ALL_OK) && (key == k ==> Critical(engine, k))
    ensures key != k ==> SameKey(engine, Alerted(engine, key, m, d), k)
    ensures key == k ==> k in Alerted(engine, key, m, d).active && Critical(Alerted(engine, key, m, d), k)
  {
    ProcessTouchesOneKey(engine, EventFor(key, m, false), d.silenced, d.first);
  }

  // A success clears the monitor's own keys, or finds them clear.
  lemma SuccessSettlesKey(st: State, op: Op, id: string, missed: bool)
    requires AlertsAreExact(st) && Smooth(op) && id in st.monitors
    requires (op.DoPing? || (op.DoExit? && op.code == 0)) && op.id == id && Known(st, id)
    ensures KeyOf(id, missed) !in Apply(st, op).engine.active
  {
    RecoveredClears(st.engine, id, st.monitors[id], op.d);
  }

  lemma FailureSettlesKey(st: State, op: Op, id: string, missed: bool)
    requires AlertsAreExact(st) && Smooth(op) && id in st.monitors && Critical(st.engine, KeyOf(id, missed))
    requires (op.DoExit? && op.id == id && Known(st, id) && 0 < op.code <= 255)
      || (op.DoMiss? && op.id == id && Overdue(st.monitors[id], op.now))
    ensures var k, st' := KeyOf(id, missed), Apply(st, op);
      Critical(st'.engine, k) && (k in st'.engine.active <==> op.DoMiss? == missed || k in st.engine.active)
  {
    var m := st.monitors[id];
    if op.DoExit? {
      AlertedKey(st.engine, FailedKey(id), m, op.d, KeyOf(id, missed));
    } else {
      var m' := m.(status := Down, alerting := true, failures := m.failures + 1, successes := 0);
      AlertedKey(st.engine, MissedKey(id), m', op.d, KeyOf(id, missed));
    }
  }

  lemma StepSettlesKey(st: State, op: Op, id: string, missed: bool)
    requires AlertsAreExact(st) && Smooth(op) && Foreign(op) && id in st.monitors && Critical(st.engine, KeyOf(id, missed))
    ensures var k, st', s := KeyOf(id, missed), Apply(st, op), Says(st, op, id, missed);
      id in st'.monitors && Critical(st'.engine, k) && (k in st'.engine.active <==> if s.Some? then s.value else k in st.engine.active)
  {
    if op.Other? || op.id != id || op.DoStart? || op.DoResume? {
      if LeavesAlone(op, id, None) && (op.Other? || op.id != id) { StepElsewhere(st, op, id); }
    } else if op.DoPause? || op.DoDelete? {
      ResolvedClears(st.engine, id, op.failed);
    } else if (op.DoPing? || (op.DoExit? && op.code == 0)) && Known(st, id) {
      SuccessSettlesKey(st, op, id, missed);
    } else if (op.DoExit? && Known(st, id) && 0 < op.code <= 255) || (op.DoMiss? && Overdue(st.monitors[id], op.now)) {
      FailureSettlesKey(st, op, id, missed);
    }
  }

  /** When nothing fails or is silenced, each of the two alerts of a monitor is active exactly
      while its own reason stands: "deadline missed" from a missed deadline on, "exit code
      failure" from a non-zero exit code on, each until the next success, pause or deletion;
      and it is critical. */
  lemma {:induction false} EachAlertHasItsReason(st: State, ops: seq<Op>, id: string, missed: bool)
    requires AlertsAreJustified(st) && AlertsAreExact(st) && id in st.monitors && !Raised(st.engine, id)
    requires forall i :: 0 <= i < |ops| ==> Smooth(ops[i]) && Foreign(ops[i])
    ensures var st' := Run(st, ops);
      id in st'.monitors && Critical(st'.engine, KeyOf(id, missed))
      && (KeyOf(id, missed) in st'.engine.active <==> Standing(st, ops, id, missed))
  {
    if ops != [] {
      var n := |ops| - 1;
      EachAlertHasItsReason(st, ops[..n], id, missed);
      AlertsFollowMonitors(st, ops[..n]);
      StepSettlesKey(Run(st, ops[..n]), ops[n], id, missed);
    }
  }

  // The keys and the body the wiring gives them.
  lemma EventsSay(id: string, m: Monitor, recover: bool)
    ensures MissedKey(id) == A.Key("heartbeat", "deadline_missed", "heartbeat", id)
    ensures FailedKey(id) == A.Key("heartbeat", "exit_code_failure", "heartbeat", id)
    ensures EventFor(MissedKey(id), m, recover).body.severity == (if recover then "info" else "critical")
    ensures EventFor(MissedKey(id), m, recover).body.entityName == m.name
  {
  }

  // ------------------------------------------------------------------------ deadlines

  // A stored sign of life of an enabled monitor, or its resumption.
  predicate Renews(st: State, op: Op) {
    match op
    case DoPing(id, _, w, _) => Known(st, id) && w.state
    case DoStart(id, _, w) => Known(st, id) && w.state
    case DoExit(id, code, _, w, _) => Known(st, id) && w.state && 0 <= code <= 255
    case DoResume(id, _, ok) => Known(st, id) && ok && st.monitors[id].status == Paused
    case _ => false
  }

  predicate Stops(st: State, op: Op) {
    op.DoPause? && op.id in st.monitors && op.ok
  }

  // The operation is about another monitor, is no heartbeat matter, or is a sweep that finds
  // this monitor at the latest at `until`; without `until`, any sweep.
  predicate LeavesAlone(op: Op, id: string, until: Option<int>) {
    match op
    case DoMiss(x, now, _, _) => x != id || until.None? || now <= until.value
    case Other(_) => Foreign(op)
    case _ => op.id != id
  }

  // Neither the monitor nor its two alerts have changed.
  ghost predicate SameMonitor(st: State, st': State, id: string) {
    && id in st.monitors && id in st'.monitors && st'.monitors[id] == st.monitors[id]
    && SameKey(st.engine, st'.engine, MissedKey(id)) && SameKey(st.engine, st'.engine, FailedKey(id))
  }

  ghost predicate Unlisted(m: Monitor, until: Option<int>) {
    if until.None? then m.status == Paused else m.deadline.Some? && until.value <= m.deadline.value
  }

  lemma RecoveredElsewhere(engine: A.State, other: string, m: Monitor, d: Delivery, k: A.Key)
    requires k != MissedKey(other) && k != FailedKey(other)
    ensures SameKey(engine, Recovered(engine, other, m, d), k)
  {
    var e1, e2 := EventFor(MissedKey(other), m, true), EventFor(FailedKey(other), m, true);
    ProcessTouchesOneKey(engine, e1, d.silenced, d.first);
    ProcessTouchesOneKey(A.Process(engine, e1, d.silenced, d.first), e2, d.silenced, d.second);
  }

  lemma PingElsewhere(st: State, op: Op, id: string)
    requires id in st.monitors && (op.DoPing? || op.DoStart?) && op.id != id
    ensures SameMonitor(st, Apply(st, op), id)
  {
    if op.DoPing? && op.id in st.monitors {
      RecoveredElsewhere(st.engine, op.id, st.monitors[op.id], op.d, MissedKey(id));
      RecoveredElsewhere(st.engine, op.id, st.monitors[op.id], op.d, FailedKey(id));
    }
  }

  lemma ExitElsewhere(st: State, op: Op, id: string)
    requires id in st.monitors && op.DoExit? && op.id != id
    ensures SameMonitor(st, Apply(st, op), id)
  {
    if op.id in st.monitors {
      RecoveredElsewhere(st.engine, op.id, st.monitors[op.id], op.d, MissedKey(id));
      RecoveredElsewhere(st.engine, op.id, st.monitors[op.id], op.d, FailedKey(id));
      ProcessTouchesOneKey(st.engine, EventFor(FailedKey(op.id), st.monitors[op.id], false), op.d.silenced, op.d.first);
    }
  }

  lemma MissElsewhere(st: State, op: Op, id: string)
    requires id in st.monitors && op.DoMiss? && op.id != id
    ensures SameMonitor(st, Apply(st, op), id)
  {
    if op.id in st.monitors {
      var m := st.monitors[op.id];
      var m' := m.(status := Down, alerting := true, failures := m.failures + 1, successes := 0);
      ProcessTouchesOneKey(st.engine, EventFor(MissedKey(op.id), m', false), op.d.silenced, op.d.first);
    }
  }

  lemma ResolveElsewhere(st: State, op: Op, id: string)
    requires id in st.monitors && (op.DoPause? || op.DoResume? || op.DoDelete?) && op.id != id
    ensures SameMonitor(st, Apply(st, op), id)
  {
  }

  lemma OtherElsewhere(st: State, op: Op, id: string)
    requires id in st.monitors && op.Other? && Foreign(op)
    ensures SameMonitor(st, Apply(st, op), id)
  {
    if op.op.Deliver? { ProcessTouchesOneKey(st.engine, op.op.event, op.op.silenced, op.op.writes); }
  }

  lemma StepElsewhere(st: State, op: Op, id: string)
    requires id in st.monitors && (if op.Other? then Foreign(op) else op.id != id)
    ensures SameMonitor(st, Apply(st, op), id)
  {
    match op
    case DoPing(_, _, _, _) => PingElsewhere(st, op, id);
    case DoStart(_, _, _) => PingElsewhere(st, op, id);
    case DoExit(_, _, _, _, _) => ExitElsewhere(st, op, id);
    case DoMiss(_, _, _, _) => MissElsewhere(st, op, id);
    case DoPause(_, _, _) => ResolveElsewhere(st, op, id);
    case DoResume(_, _, _) => ResolveElsewhere(st, op, id);
    case DoDelete(_, _, _) => ResolveElsewhere(st, op, id);
    case Other(_) => OtherElsewhere(st, op, id);
  }

  lemma StepLeavesAlone(st: State, op: Op, id: string, until: Option<int>)
    requires id in st.monitors && Unlisted(st.monitors[id], until) && LeavesAlone(op, id, until)
    ensures SameMonitor(st, Apply(st, op), id)
  {
    if op.Other? || op.id != id { StepElsewhere(st, op, id); }
  }

  // Resuming does nothing to a monitor that is not paused.
  lemma OnlyPausedResumes(st: State, id: string, now: int, ok: bool)
    requires id in st.monitors && st.monitors[id].status != Paused
    ensures Apply(st, DoResume(id, now, ok)) == st
  {
  }

  /** Deleting takes a monitor out of monitoring: its alerts are gone, and no ping, start, exit
      code or sweep changes anything again. */
  lemma DeletedIsLeftAlone(st: State, id: string, failed: set<A.Key>, op: Op)
    requires id in st.monitors && (op.DoPing? || op.DoStart? || op.DoExit? || op.DoMiss?) && op.id == id
    ensures var st' := Apply(st, DoDelete(id, true, failed));
      !Raised(st'.engine, id) && Apply(st', op) == st'
  {
    ResolvedClears(st.engine, id, failed);
  }

  // ---------------------------------------------------------------------------- runs

  // When the run in progress began, after one more operation: a stored start begins one, a
  // stored ping or exit code that finds it started ends it.
  function RunAfter(st: State, op: Op, id: string, since: Option<int>): Option<int> {
    if op.Other? || op.id != id || !Known(st, id) then since
    else
      match op
      case DoStart(_, now, w) => if w.state then Some(now) else since
      case DoPing(_, _, w, _) => if w.state && st.monitors[id].status == Started then None else since
      case DoExit(_, code, _, w, _) =>
        if w.state && 0 <= code <= 255 && st.monitors[id].status == Started then None else since
      case _ => since
  }

  function OpenRun(st: State, ops: seq<Op>, id: string): Option<int> {
    if ops == [] then None
    else
      var n := |ops| - 1;
      RunAfter(Run(st, ops[..n]), ops[n], id, OpenRun(st, ops[..n], id))
  }

  lemma StepRunStarted(st: State, op: Op, id: string)
    requires id in st.monitors && (st.monitors[id].status == Started ==> st.monitors[id].runStarted.Some?)
    ensures var m := Apply(st, op).monitors;
      && id in m && m[id].runStarted == RunAfter(st, op, id, st.monitors[id].runStarted)
      && (m[id].status == Started ==> m[id].runStarted.Some?)
  {
  }

  /** A monitor knows when the run in progress was started: at its last stored start, until a
      ping or exit code completes it. */
  lemma {:induction false} RunStartedIsOpenRun(st: State, ops: seq<Op>, id: string)
    requires id in st.monitors && st.monitors[id].runStarted == None && st.monitors[id].status != Started
    ensures var m := Run(st, ops).monitors;
      id in m && m[id].runStarted == OpenRun(st, ops, id) && (m[id].status == Started ==> m[id].runStarted.Some?)
  {
    if ops != [] {
      var n := |ops| - 1;
      RunStartedIsOpenRun(st, ops[..n], id);
      StepRunStarted(Run(st, ops[..n]), ops[n], id);
    }
  }

  lemma {:induction false} RunLeavesAlone(st: State, ops: seq<Op>, id: string, until: Option<int>)
    requires id in st.monitors && Unlisted(st.monitors[id], until)
    requires forall i :: 0 <= i < |ops| ==> LeavesAlone(ops[i], id, until)
    ensures SameMonitor(st, Run(st, ops), id)
  {
    if ops != [] {
      var n := |ops| - 1;
      RunLeavesAlone(st, ops[..n], id, until);
      StepLeavesAlone(Run(st, ops[..n]), ops[n], id, until);
    }
  }

  lemma RenewalSetsDeadline(st: State, op: Op)
    requires Renews(st, op)
    ensures var m := Apply(st, op).monitors[op.id];
      m.enabled && (m.status == Up || m.status == Started) && m.period == st.monitors[op.id].period
      && m.deadline == Some(op.now + m.period)
  {
  }

  /** After a stored ping, start, exit code or resumption at `now`, no sweep up to now plus the
      monitor's period, whatever happens to other monitors and in the engine, changes the
      monitor or its alerts; the first sweep after that which finds it marks it down and
      alerting, and its alert is active unless silenced or lost. */
  lemma MissedExactlyAfterPeriod(st: State, op: Op, ops: seq<Op>, now: int, w: Writes, d: Delivery)
    requires Renews(st, op)
    requires forall i :: 0 <= i < |ops| ==> LeavesAlone(ops[i], op.id, Some(op.now + st.monitors[op.id].period))
    ensures var st1 := Apply(st, op);
      var st2 := Run(st1, ops);
      var st3 := Apply(st2, DoMiss(op.id, now, w, d));
      && SameMonitor(st1, st2, op.id)
      && (now <= op.now + st.monitors[op.id].period ==> SameMonitor(st1, st3, op.id))
      && (now > op.now + st.monitors[op.id].period && w.state ==>
            && st3.monitors[op.id].status == Down && st3.monitors[op.id].alerting
            && (!d.silenced && d.first.insert ==> MissedKey(op.id) in st3.engine.active))
  {
    var until := Some(op.now + st.monitors[op.id].period);
    RenewalSetsDeadline(st, op);
    var st1 := Apply(st, op);
    RunLeavesAlone(st1, ops, op.id, until);
    var st2 := Run(st1, ops);
    if now <= until.value {
      StepLeavesAlone(st2, DoMiss(op.id, now, w, d), op.id, until);
    } else if w.state {
      MissRaises(st2, op.id, now, w, d);
    }
  }

  lemma MissRaises(st: State, id: string, now: int, w: Writes, d: Delivery)
    requires id in st.monitors && Overdue(st.monitors[id], now) && w.state
    ensures var st' := Apply(st, DoMiss(id, now, w, d));
      && st'.monitors[id].status == Down && st'.monitors[id].alerting
      && (!d.silenced && d.first.insert ==> MissedKey(id) in st'.engine.active)
  {
    var m := st.monitors[id];
    var m' := m.(status := Down, alerting := true, failures := m.failures + 1, successes := 0);
    ProcessTouchesOneKey(st.engine, EventFor(MissedKey(id), m', false), d.silenced, d.first);
  }

  /** After a stored pause no sweep at any time changes the monitor or raises its alerts, of
      which neither is active, until something else is done to it. */
  lemma PausedIsNeverMissed(st: State, op: Op, ops: seq<Op>)
    requires Stops(st, op) && forall i :: 0 <= i < |ops| ==> LeavesAlone(ops[i], op.id, None)
    ensures var st1 := Apply(st, op);
      && SameMonitor(st1, Run(st1, ops), op.id) && !Raised(st1.engine, op.id)
      && st1.monitors[op.id] == st.monitors[op.id].(status := Paused, alerting := false, deadline := None)
  {
    ResolvedClears(st.engine, op.id, op.failed);
    RunLeavesAlone(Apply(st, op), ops, op.id, None);
  }

  // ------------------------------------------------------------------------- counters

  // The outcome an operation stores for a monitor: a success, a failure, or none.
  function Outcome1(st: State, op: Op, id: string): Option<bool> {
    match op
    case DoPing(x, _, w, _) => if x == id && Known(st, id) && w.state then Some(true) else None
    case DoExit(x, code, _, w, _) =>
      if x == id && Known(st, id) && w.state && 0 <= code <= 255 then Some(code == 0) else None
    case DoMiss(x, now, w, _) => if x == id && id in st.monitors && Overdue(st.monitors[id], now) && w.state then Some(false) else None
    case _ => None
  }

  function Outcomes(st: State, ops: seq<Op>, id: string): seq<bool> {
    if ops == [] then []
    else
      var n := |ops| - 1;
      var o := Outcome1(Run(st, ops[..n]), ops[n], id);
      if o.Some? then Outcomes(st, ops[..n], id) + [o.value] else Outcomes(st, ops[..n], id)
  }

  ghost predicate LastAll(s: seq<bool>, k: int, outcome: bool) {
    k <= |s| && forall i :: 0 <= i < |s| && |s| - k <= i ==> s[i] == outcome
  }

  lemma LastAllSnoc(s: seq<bool>, x: bool, k: int, outcome: bool)
    requires k > 0
    ensures LastAll(s + [x], k, outcome) <==> x == outcome && LastAll(s, k - 1, outcome)
  {
    var t := s + [x];
    assert t[|s|] == x && forall i :: 0 <= i < |s| ==> t[i] == s[i];
  }

  lemma StepCounts(st: State, op: Op, id: string)
    requires id in st.monitors
    ensures id in Apply(st, op).monitors
    ensures var m, m', o := st.monitors[id], Apply(st, op).monitors[id], Outcome1(st, op, id);
      if o.None? then m'.failures == m.failures && m'.successes == m.successes
      else if o.value then m'.failures == 0 && m'.successes == m.successes + 1
      else m'.failures == m.failures + 1 && m'.successes == 0
  {
  }

  /** Over every run, whatever fails, a monitor's counters measure the current streak of its
      stored outcomes: pings and exit code 0 as successes, other exit codes and missed
      deadlines as failures; starts, pauses and resumptions count as neither. */
  lemma {:induction false} CountersAreStreaks(st: State, ops: seq<Op>, id: string, k: int)
    requires id in st.monitors && st.monitors[id].failures == 0 && st.monitors[id].successes == 0
    ensures id in Run(st, ops).monitors
    ensures Run(st, ops).monitors[id].failures >= k <==> LastAll(Outcomes(st, ops, id), k, false)
    ensures Run(st, ops).monitors[id].successes >= k <==> LastAll(Outcomes(st, ops, id), k, true)
  {
    if ops != [] {
      var n := |ops| - 1;
      var before, o := Outcomes(st, ops[..n], id), Outcome1(Run(st, ops[..n]), ops[n], id);
      CountersAreStreaks(st, ops[..n], id, k);
      StepCounts(Run(st, ops[..n]), ops[n], id);
      if o.Some? && k > 0 {
        CountersAreStreaks(st, ops[..n], id, k - 1);
        LastAllSnoc(before, o.value, k, false);
        LastAllSnoc(before, o.value, k, true);
      }
    }
  }

  // ------------------------------------------------------------- execution invariant

  ghost predicate ExecsNumbered(st: State) {
    forall x :: x in st.execs ==> x < st.nextExec
  }

  ghost predicate OneAtATime(st: State) {
    && ExecsNumbered(st)
    && OneEach(st.execs)
    && (forall id :: id in st.monitors && st.monitors[id].status == Started ==> exists x: nat :: Running(st.execs, id, x))
  }

  ghost predicate OneEach(execs: map<nat, Exec>) {
    forall id, x: nat, y: nat :: Running(execs, id, x) && Running(execs, id, y) ==> x == y
  }

  // Executions only appear in progress or closed, and a closed one never changes again.
  ghost predicate OnlyCloses(before: map<nat, Exec>, after: map<nat, Exec>) {
    forall x :: x in before ==>
      x in after && after[x].monitor == before[x].monitor && (before[x].outcome != InProgress ==> after[x] == before[x])
  }

  lemma ExecStepsOnlyClose(st: State, id: string, outcome: Outcome, w: Writes)
    requires ExecsNumbered(st)
    ensures var a := CloseCurrent(st, id, outcome, w.updateExec); ExecsNumbered(a) && OnlyCloses(st.execs, a.execs)
    ensures var b := Record(st, id, outcome, w.insertExec); ExecsNumbered(b) && OnlyCloses(st.execs, b.execs)
  {
  }

  lemma StartExecsOnlyClose(st: State, id: string, w: Writes)
    requires ExecsNumbered(st)
    ensures var a := StartExecs(st, id, w); ExecsNumbered(a) && OnlyCloses(st.execs, a.execs)
  {
    ExecStepsOnlyClose(st, id, Timeout, w);
    ExecStepsOnlyClose(CloseCurrent(st, id, Timeout, w.updateExec), id, InProgress, w);
  }

  lemma PingOnlyCloses(st: State, op: Op)
    requires ExecsNumbered(st) && op.DoPing?
    ensures ExecsNumbered(Apply(st, op)) && OnlyCloses(st.execs, Apply(st, op).execs)
  {
    ExecStepsOnlyClose(st, op.id, Success, op.w);
  }

  lemma ExitOnlyCloses(st: State, op: Op)
    requires ExecsNumbered(st) && op.DoExit?
    ensures ExecsNumbered(Apply(st, op)) && OnlyCloses(st.execs, Apply(st, op).execs)
  {
    ExecStepsOnlyClose(st, op.id, Success, op.w);
    ExecStepsOnlyClose(st, op.id, Failure, op.w);
  }

  lemma ApplyOnlyCloses(st: State, op: Op)
    requires ExecsNumbered(st)
    ensures ExecsNumbered(Apply(st, op)) && OnlyCloses(st.execs, Apply(st, op).execs)
  {
    match op
    case DoPing(_, _, _, _) => PingOnlyCloses(st, op);
    case DoExit(_, _, _, _, _) => ExitOnlyCloses(st, op);
    case DoStart(id, _, w) => StartExecsOnlyClose(st, id, w);
    case DoMiss(id, _, w, _) => ExecStepsOnlyClose(st, id, Timeout, w);
    case _ =>
  }

  /** An execution is closed at most once: what a run has closed, no continuation of it
      touches again. */
  lemma {:induction false} ExecutionsCloseOnce(st: State, ops: seq<Op>, more: seq<Op>)
    requires ExecsNumbered(st)
    ensures ExecsNumbered(Run(st, ops + more))
    ensures OnlyCloses(Run(st, ops).execs, Run(st, ops + more).execs)
    decreases |ops + more|
  {
    if more == [] {
      assert ops + more == ops;
      if ops != [] {
        var n := |ops| - 1;
        ExecutionsCloseOnce(st, ops[..n], []);
        assert ops[..n] + [] == ops[..n];
        ApplyOnlyCloses(Run(st, ops[..n]), ops[n]);
      }
    } else {
      var n := |more| - 1;
      ExecutionsCloseOnce(st, ops, more[..n]);
      assert (ops + more)[..|ops + more| - 1] == ops + more[..n];
      ApplyOnlyCloses(Run(st, ops + more[..n]), more[n]);
    }
  }

  lemma CloseFreesSlot(st: State, id: string, outcome: Outcome)
    requires ExecsNumbered(st) && OneEach(st.execs) && outcome != InProgress
    ensures var st' := CloseCurrent(st, id, outcome, true);
      && ExecsNumbered(st') && OneEach(st'.execs)
      && (forall x: nat :: !Running(st'.execs, id, x))
      && (forall other, x: nat :: other != id ==> (Running(st'.execs, other, x) <==> Running(st.execs, other, x)))
  {
    var st' := CloseCurrent(st, id, outcome, true);
    forall other, x: nat | Running(st'.execs, other, x) ensures Running(st.execs, other, x) && x < st.nextExec {}
    forall x: nat ensures !Running(st'.execs, id, x) {
      assert Running(st.execs, id, x) ==> Current(st, id) == Some(x);
    }
  }

  lemma RecordUsesFreeSlot(st: State, id: string, outcome: Outcome)
    requires ExecsNumbered(st) && OneEach(st.execs)
    requires outcome == InProgress ==> forall x: nat :: !Running(st.execs, id, x)
    ensures var st' := Record(st, id, outcome, true);
      && ExecsNumbered(st') && OneEach(st'.execs)
      && (forall other, x: nat :: Running(st.execs, other, x) ==> Running(st'.execs, other, x))
      && (outcome == InProgress ==> Running(st'.execs, id, st.nextExec))
  {
    var st' := Record(st, id, outcome, true);
    forall other, x: nat | Running(st'.execs, other, x)
      ensures Running(st.execs, other, x) || (x == st.nextExec && other == id && outcome == InProgress) {}
  }

  // The heartbeat store takes what the operation writes; the alert side does not matter.
  predicate Stored(op: Op) {
    match op
    case DoPing(_, _, w, _) => w == Writes(true, true, true)
    case DoStart(_, _, w) => w == Writes(true, true, true)
    case DoExit(_, _, _, w, _) => w == Writes(true, true, true)
    case DoMiss(_, _, w, _) => w == Writes(true, true, true)
    case _ => true
  }

  // ------------------------------------------------------------- what executions record

  function Having(execs: map<nat, Exec>, id: string, outcome: Outcome): set<nat> {
    set x | x in execs && execs[x] == Exec(id, outcome)
  }

  // How an operation ends an execution of a monitor, if it does: a success or failure ends
  // the run in progress or is a run of its own; a start interrupts the run in progress, and a
  // missed deadline one that was started.
  function Ends(st: State, op: Op, id: string): Option<Outcome> {
    match op
    case DoPing(x, _, _, _) => if x == id && Known(st, id) then Some(Success) else None
    case DoExit(x, code, _, _, _) =>
      if x == id && Known(st, id) && 0 <= code <= 255 then Some(if code == 0 then Success else Failure) else None
    case DoStart(x, _, _) => if x == id && Known(st, id) && Current(st, id).Some? then Some(Timeout) else None
    case DoMiss(x, now, _, _) =>
      if x == id && id in st.monitors && Overdue(st.monitors[id], now) && st.monitors[id].status == Started then Some(Timeout)
      else None
    case _ => None
  }

  function Tally(st: State, ops: seq<Op>, id: string, outcome: Outcome): nat {
    if ops == [] then 0
    else
      var n := |ops| - 1;
      Tally(st, ops[..n], id, outcome) + if Ends(Run(st, ops[..n]), ops[n], id) == Some(outcome) then 1 else 0
  }

  lemma PutTallies(execs: map<nat, Exec>, x: nat, e: Exec, id: string, o: Outcome)
    requires x in execs ==> execs[x] != Exec(id, o)
    ensures |Having(execs[x := e], id, o)| == |Having(execs, id, o)| + if e == Exec(id, o) then 1 else 0
  {
    var before, after := Having(execs, id, o), Having(execs[x := e], id, o);
    var own: set<nat> := if e == Exec(id, o) then {x} else {};
    forall y: nat ensures y in after <==> y in before + own { PutMember(execs, x, e, id, o, y); }
    assert after == before + own && before !! own;
  }

  lemma PutMember(execs: map<nat, Exec>, x: nat, e: Exec, id: string, o: Outcome, y: nat)
    requires x in execs ==> execs[x] != Exec(id, o)
    ensures y in Having(execs[x := e], id, o) <==> y in Having(execs, id, o) || (y == x && e == Exec(id, o))
  {
  }

  lemma CloseTallies(st: State, id: string, outcome: Outcome, other: string, o: Outcome)
    requires o != InProgress && outcome != InProgress
    ensures |Having(CloseCurrent(st, id, outcome, true).execs, other, o)| ==
      |Having(st.execs, other, o)| + if Current(st, id).Some? && other == id && o == outcome then 1 else 0
  {
    var x := Current(st, id);
    if x.Some? { PutTallies(st.execs, x.value, Exec(id, outcome), other, o); }
  }

  lemma RecordTallies(st: State, id: string, outcome: Outcome, other: string, o: Outcome)
    requires ExecsNumbered(st)
    ensures |Having(Record(st, id, outcome, true).execs, other, o)| ==
      |Having(st.execs, other, o)| + if other == id && o == outcome then 1 else 0
  {
    assert st.nextExec !in st.execs;
    PutTallies(st.execs, st.nextExec, Exec(id, outcome), other, o);
  }

  lemma StartTallies(st: State, id: string, other: string, o: Outcome)
    requires ExecsNumbered(st) && o != InProgress
    ensures |Having(StartExecs(st, id, Writes(true, true, true)).execs, other, o)| ==
      |Having(st.execs, other, o)| + if Current(st, id).Some? && other == id && o == Timeout then 1 else 0
  {
    CloseTallies(st, id, Timeout, other, o);
    var closed := CloseCurrent(st, id, Timeout, true);
    assert ExecsNumbered(closed);
    RecordTallies(closed, id, InProgress, other, o);
  }

  // A started monitor has an execution to close.
  lemma StartedHasCurrent(st: State, id: string)
    requires OneAtATime(st) && id in st.monitors && st.monitors[id].status == Started
    ensures Current(st, id).Some?
  {
    var x: nat :| Running(st.execs, id, x);
  }

  lemma StepTallies(st: State, op: Op, id: string, o: Outcome)
    requires OneAtATime(st) && Stored(op) && o != InProgress
    ensures |Having(Apply(st, op).execs, id, o)| == |Having(st.execs, id, o)| + if Ends(st, op, id) == Some(o) then 1 else 0
  {
    match op
    case DoPing(x, _, _, _) =>
      if Known(st, x) && st.monitors[x].status == Started { StartedHasCurrent(st, x); }
      CloseTallies(st, x, Success, id, o);
      RecordTallies(st, x, Success, id, o);
    case DoExit(x, code, _, _, _) =>
      CloseTallies(st, x, if code == 0 then Success else Failure, id, o);
      RecordTallies(st, x, if code == 0 then Success else Failure, id, o);
    case DoStart(x, _, _) => StartTallies(st, x, id, o);
    case DoMiss(x, _, _, _) =>
      if x in st.monitors && st.monitors[x].status == Started { StartedHasCurrent(st, x); }
      CloseTallies(st, x, Timeout, id, o);
    case _ =>
  }

  /** While the heartbeat store takes the writes of pings and misses, a monitor has exactly as
      many executions of each final outcome as were ended so: by successes, by failures, and
      by starts and missed deadlines that cut a run short. */
  lemma {:induction false} ExecutionsTallied(st: State, ops: seq<Op>, id: string, o: Outcome)
    requires OneAtATime(st) && st.execs == map[] && o != InProgress && forall i :: 0 <= i < |ops| ==> Stored(ops[i])
    ensures |Having(Run(st, ops).execs, id, o)| == Tally(st, ops, id, o)
  {
    if ops != [] {
      var n := |ops| - 1;
      ExecutionsTallied(st, ops[..n], id, o);
      OneExecutionInProgress(st, ops[..n]);
      StepTallies(Run(st, ops[..n]), ops[n], id, o);
    } else {
      assert Having(st.execs, id, o) == {};
    }
  }

  /** Nothing is left running behind: a taken exit code, a ping that completes a started run
      and a missed deadline of a started one leave no execution of the monitor in progress; a
      taken start leaves the one it opens. */
  lemma NothingLeftRunning(st: State, op: Op, id: string)
    requires OneAtATime(st) && Stored(op) && !op.Other? && op.id == id && id in st.monitors
    ensures Known(st, id) && op.DoExit? && 0 <= op.code <= 255 ==> Current(Apply(st, op), id) == None
    ensures Known(st, id) && op.DoPing? && st.monitors[id].status == Started && st.monitors[id].runStarted.Some? ==>
      Current(Apply(st, op), id) == None
    ensures op.DoMiss? && Overdue(st.monitors[id], op.now) && st.monitors[id].status == Started ==> Current(Apply(st, op), id) == None
    ensures Known(st, id) && op.DoStart? ==> Current(Apply(st, op), id) == Some(st.nextExec)
  {
    var o := if op.DoExit? && op.code != 0 then Failure else if op.DoMiss? then Timeout else Success;
    ApplyKeepsOneAtATime(st, op);
    CloseFreesSlot(st, id, o);
    if Current(st, id).None? { NoneStaysNone(st, id, o); }
    if op.DoStart? {
      CloseFreesSlot(st, id, Timeout);
      RecordUsesFreeSlot(CloseCurrent(st, id, Timeout, true), id, InProgress);
    }
  }

  lemma NoneStaysNone(st: State, id: string, o: Outcome)
    requires ExecsNumbered(st) && Current(st, id).None? && o != InProgress
    ensures Current(Record(st, id, o, true), id).None?
  {
    var x := Current(Record(st, id, o, true), id);
    assert x.Some? ==> Running(st.execs, id, x.value);
  }

  lemma ApplyKeepsOneAtATime(st: State, op: Op)
    requires OneAtATime(st) && Stored(op)
    ensures OneAtATime(Apply(st, op))
  {
    match op
    case DoPing(id, _, _, _) =>
      CloseFreesSlot(st, id, Success);
      RecordUsesFreeSlot(st, id, Success);
    case DoStart(id, _, _) =>
      CloseFreesSlot(st, id, Timeout);
      RecordUsesFreeSlot(CloseCurrent(st, id, Timeout, true), id, InProgress);
    case DoExit(id, code, _, _, _) =>
      CloseFreesSlot(st, id, if code == 0 then Success else Failure);
      RecordUsesFreeSlot(st, id, if code == 0 then Success else Failure);
    case DoMiss(id, _, _, _) => CloseFreesSlot(st, id, Timeout);
    case _ =>
  }

  /** While the heartbeat store takes the writes of pings and misses, at most one execution
      per monitor is ever in progress, and a started monitor has one, whatever happens to
      the alerts and to pauses, resumes and deletions. */
  lemma {:induction false} OneExecutionInProgress(st: State, ops: seq<Op>)
    requires OneAtATime(st) && forall i :: 0 <= i < |ops| ==> Stored(ops[i])
    ensures OneAtATime(Run(st, ops))
  {
    if ops != [] {
      var n := |ops| - 1;
      OneExecutionInProgress(st, ops[..n]);
      ApplyKeepsOneAtATime(Run(st, ops[..n]), ops[n]);
    }
  }

  // -------------------------------------------------------------------- the service

  // A sweep's effect: each listed monitor in turn misses its deadline.
  function Sweep(st: State, ids: seq<string>, w: string -> Writes, d: string -> Delivery): State {
    if ids == [] then st
    else
      var n := |ids| - 1;
      MissDeadline(Sweep(st, ids[..n], w, d), ids[n], w(ids[n]), d(ids[n]))
  }

  lemma {:induction false} SweepLeavesOthers(st: State, ids: seq<string>, w: string -> Writes, d: string -> Delivery, id: string)
    requires id !in ids
    ensures id in Sweep(st, ids, w, d).monitors <==> id in st.monitors
    ensures id in st.monitors ==> Sweep(st, ids, w, d).monitors[id] == st.monitors[id]
  {
    if ids != [] {
      SweepLeavesOthers(st, ids[..|ids| - 1], w, d, id);
    }
  }

  function Misses(ids: seq<string>, now: int, w: string -> Writes, d: string -> Delivery): seq<Op> {
    seq(|ids|, i requires 0 <= i < |ids| => DoMiss(ids[i], now, w(ids[i]), d(ids[i])))
  }

  // Over the listed overdue monitors a sweep is a run of missed deadlines, so the results
  // about runs cover it.
  lemma {:induction false} SweepIsRun(st: State, ids: seq<string>, now: int, w: string -> Writes, d: string -> Delivery)
    requires forall i :: 0 <= i < |ids| ==> ids[i] in st.monitors && Overdue(st.monitors[ids[i]], now)
    requires forall i, j :: 0 <= i < j < |ids| ==> ids[i] != ids[j]
    ensures Sweep(st, ids, w, d) == Run(st, Misses(ids, now, w, d))
  {
    if ids != [] {
      var n := |ids| - 1;
      SweepIsRun(st, ids[..n], now, w, d);
      SweepLeavesOthers(st, ids[..n], w, d, ids[n]);
      assert Misses(ids, now, w, d)[..n] == Misses(ids[..n], now, w, d);
    }
  }

  class Service {
    var monitors: map<string, Monitor>
    var execs: map<nat, Exec>
    var nextExec: nat
    var engine: A.State

    function View(): State
      reads this
    {
      State(monitors, execs, nextExec, engine)
    }

    method CloseExecution(id: string, outcome: Outcome, ok: bool)
      modifies this`execs
      ensures View() == CloseCurrent(old(View()), id, outcome, ok)
    {
      var x := Current(View(), id);
      if x.Some? && ok {
        execs := execs[x.value := Exec(id, outcome)];
      }
    }

    method InsertExecution(id: string, outcome: Outcome, ok: bool)
      modifies this`execs, this`nextExec
      ensures View() == Record(old(View()), id, outcome, ok)
    {
      if ok {
        execs, nextExec := execs[nextExec := Exec(id, outcome)], nextExec + 1;
      }
    }

    method SendRecovery(id: string, m: Monitor, d: Delivery)
      modifies this`engine
      ensures engine == Recovered(old(engine), id, m, d)
    {
      engine := A.Process(engine, EventFor(MissedKey(id), m, true), d.silenced, d.first);
      engine := A.Process(engine, EventFor(FailedKey(id), m, true), d.silenced, d.second);
    }

    method ProcessPing(id: string, now: int, w: Writes, d: Delivery)
      modifies this
      ensures View() == Ping(old(View()), id, now, w, d)
    {
      if !Known(View(), id) {
        return;
      }
      var m := monitors[id];
      var h := m.(deadline := Some(now + m.period), successes := m.successes + 1, failures := 0);
      if m.status == Started && m.runStarted.Some? {
        h := h.(runStarted := None);
        CloseExecution(id, Success, w.updateExec);
      } else {
        InsertExecution(id, Success, w.insertExec);
      }
      var recovering := m.status == Down || m.alerting;
      if !w.state {
        return;
      }
      monitors := monitors[id := h.(status := Up, alerting := if recovering then false else m.alerting)];
      if recovering {
        SendRecovery(id, m, d);
      }
    }

    method ProcessStartPing(id: string, now: int, w: Writes)
      modifies this
      ensures View() == StartPing(old(View()), id, now, w)
    {
      if !Known(View(), id) {
        return;
      }
      CloseExecution(id, Timeout, w.updateExec);
      InsertExecution(id, InProgress, w.insertExec);
      if !w.state {
        return;
      }
      var m := monitors[id];
      monitors := monitors[id := m.(status := Started, deadline := Some(now + m.period), runStarted := Some(now))];
    }

    method ProcessExitCodePing(id: string, code: int, now: int, w: Writes, d: Delivery)
      modifies this
      ensures View() == ExitPing(old(View()), id, code, now, w, d)
    {
      if code < 0 || code > 255 || !Known(View(), id) {
        return;
      }
      var m := monitors[id];
      var h := m.(status := Up, deadline := Some(now + m.period));
      if m.status == Started && m.runStarted.Some? {
        h := h.(runStarted := None);
      }
      var outcome: Outcome;
      if code == 0 {
        outcome := Success;
        h := h.(successes := m.successes + 1, failures := 0, alerting := false);
      } else {
        outcome := Failure;
        h := h.(failures := m.failures + 1, successes := 0, alerting := true);
      }
      if Current(View(), id).Some? {
        CloseExecution(id, outcome, w.updateExec);
      } else {
        InsertExecution(id, outcome, w.insertExec);
      }
      if !w.state {
        return;
      }
      monitors := monitors[id := h];
      if code != 0 {
        engine := A.Process(engine, EventFor(FailedKey(id), m, false), d.silenced, d.first);
      } else if m.status == Down || m.alerting {
        SendRecovery(id, m, d);
      }
    }

    /** The sweep over the monitors the store listed as overdue: each one whose write
        succeeds goes down and alerting, the others stay as they were. */
    method CheckDeadlines(overdue: seq<string>, now: int, w: string -> Writes, d: string -> Delivery)
      requires forall i :: 0 <= i < |overdue| ==> overdue[i] in monitors && Overdue(monitors[overdue[i]], now)
      requires forall i, j :: 0 <= i < j < |overdue| ==> overdue[i] != overdue[j]
      modifies this
      ensures View() == Sweep(old(View()), overdue, w, d)
      ensures monitors.Keys == old(monitors).Keys
      ensures forall id :: id in monitors ==>
        if id in overdue && w(id).state then monitors[id].status == Down && monitors[id].alerting
        else monitors[id] == old(monitors)[id]
    {
      for i := 0 to |overdue|
        invariant View() == Sweep(old(View()), overdue[..i], w, d)
        invariant monitors.Keys == old(monitors).Keys
        invariant forall id :: id in monitors ==>
          if id in overdue[..i] && w(id).state then monitors[id].status == Down && monitors[id].alerting
          else monitors[id] == old(monitors)[id]
      {
        var id := overdue[i];
        assert overdue[..i + 1][..i] == overdue[..i];
        assert forall x :: x in overdue[..i + 1] <==> x in overdue[..i] || x == id;
        MissOne(id, w(id), d(id));
      }
      assert overdue[..|overdue|] == overdue;
    }

    method MissOne(id: string, w: Writes, d: Delivery)
      requires id in monitors
      modifies this
      ensures View() == MissDeadline(old(View()), id, w, d)
    {
      var m := monitors[id];
      var h := m.(status := Down, alerting := true, failures := m.failures + 1, successes := 0);
      if !w.state {
        return;
      }
      monitors := monitors[id := h];
      if m.status == Started {
        CloseExecution(id, Timeout, w.updateExec);
      }
      engine := A.Process(engine, EventFor(MissedKey(id), h, false), d.silenced, d.first);
    }

    method PauseMonitor(id: string, stored: bool, failed: set<A.Key>) returns (ok: bool)
      modifies this`monitors, this`engine
      ensures View() == Pause(old(View()), id, stored, failed)
      ensures ok <==> id in old(monitors) && stored
    {
      if id !in monitors || !stored {
        return false;
      }
      monitors := monitors[id := monitors[id].(status := Paused, alerting := false, deadline := None)];
      engine := A.ResolveByEntity(engine, HEARTBEAT, id, failed);
      ok := true;
    }

    // Only a paused monitor can be resumed.
    method ResumeMonitor(id: string, now: int, stored: bool) returns (ok: bool)
      modifies this`monitors
      ensures View() == Resume(old(View()), id, now, stored)
      ensures ok <==> id in old(monitors) && old(monitors)[id].status == Paused && stored
    {
      if id !in monitors {
        return false;
      }
      var m := monitors[id];
      if m.status != Paused || !stored {
        return false;
      }
      monitors := monitors[id := m.(status := Up, deadline := Some(now + m.period))];
      ok := true;
    }

    method DeleteMonitor(id: string, stored: bool, failed: set<A.Key>) returns (ok: bool)
      modifies this`monitors, this`engine
      ensures View() == Delete(old(View()), id, stored, failed)
      ensures ok <==> id in old(monitors) && stored
    {
      if id !in monitors || !stored {
        return false;
      }
      monitors := monitors[id := monitors[id].(enabled := false)];
      engine := A.ResolveByEntity(engine, HEARTBEAT, id, failed);
      ok := true;
    }
  }
}
