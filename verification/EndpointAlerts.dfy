/**
 Endpoint checks and the alert engine they feed, for one endpoint of many. A check raises or
 clears the outage alert on the detector's signal, and the certificate alert on the result
 itself. Other traffic of the engine may come in between; alert writes may fail and events
 may be silenced.
 */
module EndpointAlerts {
  import E = Endpoint
  import A = AlertEngine

  const ENDPOINT: string := "endpoint"
  const OUTAGE: string := "consecutive_failure"
  const UNTRUSTED: string := "certificate_untrusted"

  function OutageKey(id: string): A.Key { A.Key(ENDPOINT, OUTAGE, ENDPOINT, id) }
  function CertKey(id: string): A.Key { A.Key(ENDPOINT, UNTRUSTED, ENDPOINT, id) }

  // How the engine meets the events of one check.
  datatype Delivery = Delivery(silenced: bool, cert: A.Writes, outage: A.Writes)

  const SMOOTH := Delivery(false, A.ALL_OK, A.ALL_OK)

  datatype System = System(endpoint: E.State, engine: A.State)

  datatype Op =
    | Check(result: E.Result, name: string, d: Delivery)
    | Other(op: A.Op)

  function EventFor(key: A.Key, severity: string, name: string, recover: bool): A.Event {
    A.Event(key, A.Body(severity, name, name, "{}"), recover)
  }

  // A degraded result raises the certificate alert, a plain success clears it, a failure
  // says nothing about it.
  function CertSignalled(engine: A.State, id: string, r: E.Result, name: string, d: Delivery): A.State {
    if r.degraded then A.Process(engine, EventFor(CertKey(id), "warning", name, false), d.silenced, d.cert)
    else if r.success then A.Process(engine, EventFor(CertKey(id), "info", name, true), d.silenced, d.cert)
    else engine
  }

  function OutageSignalled(engine: A.State, id: string, s: E.Signal, name: string, d: Delivery): A.State {
    match s
    case Alert => A.Process(engine, EventFor(OutageKey(id), "critical", name, false), d.silenced, d.outage)
    case Recovery => A.Process(engine, EventFor(OutageKey(id), "info", name, true), d.silenced, d.outage)
    case Quiet => engine
  }

  // A replayed result never reaches the callback.
  function Step(cfg: E.Config, id: string, s: System, op: Op): System {
    match op
    case Other(o) => s.(engine := A.Apply(s.engine, o))
    case Check(r, name, d) =>
      if r.replayed then s
      else
        System(E.Step(cfg, s.endpoint, r),
               OutageSignalled(CertSignalled(s.engine, id, r, name, d), id, E.Emit(cfg, s.endpoint, r), name, d))
  }

  function Run(cfg: E.Config, id: string, engine: A.State, ops: seq<Op>): System {
    if ops == [] then System(E.INITIAL, engine)
    else Step(cfg, id, Run(cfg, id, engine, ops[..|ops| - 1]), ops[|ops| - 1])
  }

  // Traffic that is not about this endpoint.
  predicate Foreign(op: Op, id: string) {
    op.Other? ==>
      match op.op
      case Deliver(e, _, _) => !A.OfEntity(e.key, ENDPOINT, id)
      case RemoveEntity(t, x, _) => t != ENDPOINT || x != id
  }

  // The certificate verdict of the last live result that has one.
  function Untrusted(ops: seq<Op>): bool {
    if ops == [] then false
    else
      var n := |ops| - 1;
      if ops[n].Other? || ops[n].result.replayed then Untrusted(ops[..n])
      else if ops[n].result.degraded then true
      else if ops[n].result.success then false
      else Untrusted(ops[..n])
  }

  predicate Smooth(op: Op) { op.Check? ==> op.d == SMOOTH }

  lemma OneKey(engine: A.State, e: A.Event, silenced: bool, w: A.Writes, k: A.Key)
    ensures var after := A.Process(engine, e, silenced, w).active;
      && (k != e.key ==> (k in after <==> k in engine.active) && (k in after ==> after[k] == engine.active[k]))
      && (e.recover ==> e.key !in after)
      && (!e.recover && !silenced && w.insert ==> e.key in after)
  {
  }

  lemma OtherLeavesKeys(engine: A.State, op: A.Op, id: string, k: A.Key)
    requires Foreign(Other(op), id) && A.OfEntity(k, ENDPOINT, id)
    ensures k in A.Apply(engine, op).active <==> k in engine.active
    ensures k in engine.active ==> A.Apply(engine, op).active[k] == engine.active[k]
  {
    if op.Deliver? { OneKey(engine, op.event, op.silenced, op.writes, k); }
  }

  lemma CertSettles(engine: A.State, id: string, r: E.Result, name: string, d: Delivery)
    ensures var after := CertSignalled(engine, id, r, name, d).active;
      && (OutageKey(id) in after <==> OutageKey(id) in engine.active)
      && (CertKey(id) in after ==> r.degraded || (!r.success && CertKey(id) in engine.active))
      && (d == SMOOTH ==> (CertKey(id) in after <==> r.degraded || (!r.success && CertKey(id) in engine.active)))
  {
    if r.degraded || r.success {
      var e := EventFor(CertKey(id), if r.degraded then "warning" else "info", name, !r.degraded);
      OneKey(engine, e, d.silenced, d.cert, OutageKey(id));
    }
  }

  lemma OutageSettles(engine: A.State, id: string, s: E.Signal, name: string, d: Delivery)
    ensures var after := OutageSignalled(engine, id, s, name, d).active;
      && (CertKey(id) in after <==> CertKey(id) in engine.active)
      && (OutageKey(id) in after ==> s == E.Alert || (s == E.Quiet && OutageKey(id) in engine.active))
      && (d == SMOOTH ==> (OutageKey(id) in after <==> s == E.Alert || (s == E.Quiet && OutageKey(id) in engine.active)))
  {
    if s != E.Quiet {
      var e := EventFor(OutageKey(id), if s == E.Alert then "critical" else "info", name, s == E.Recovery);
      OneKey(engine, e, d.silenced, d.outage, CertKey(id));
    }
  }

  // Each active alert of the endpoint is justified.
  ghost predicate Justified(s: System, id: string, untrusted: bool) {
    (OutageKey(id) in s.engine.active ==> s.endpoint.alerting) && (CertKey(id) in s.engine.active ==> untrusted)
  }

  ghost predicate Exact(s: System, id: string, untrusted: bool) {
    (OutageKey(id) in s.engine.active <==> s.endpoint.alerting) && (CertKey(id) in s.engine.active <==> untrusted)
  }

  lemma StepKeeps(cfg: E.Config, id: string, s: System, op: Op, before: bool, after: bool)
    requires Foreign(op, id) && Justified(s, id, before)
    requires after ==
      if op.Other? || op.result.replayed then before else op.result.degraded || (!op.result.success && before)
    ensures Justified(Step(cfg, id, s, op), id, after)
    ensures Exact(s, id, before) && Smooth(op) ==> Exact(Step(cfg, id, s, op), id, after)
  {
    match op
    case Other(o) =>
      OtherLeavesKeys(s.engine, o, id, OutageKey(id));
      OtherLeavesKeys(s.engine, o, id, CertKey(id));
    case Check(r, name, d) =>
      CertSettles(s.engine, id, r, name, d);
      OutageSettles(CertSignalled(s.engine, id, r, name, d), id, E.Emit(cfg, s.endpoint, r), name, d);
  }

  /** Whatever is silenced or fails, and whatever other traffic the engine sees, an active
      outage alert means the endpoint is alerting and an active certificate alert means its
      last verdict was untrusted; when nothing fails or is silenced, each holds exactly. */
  lemma {:induction false} AlertsFollowEndpoint(cfg: E.Config, id: string, engine: A.State, ops: seq<Op>)
    requires OutageKey(id) !in engine.active && CertKey(id) !in engine.active
    requires forall i :: 0 <= i < |ops| ==> Foreign(ops[i], id)
    ensures Justified(Run(cfg, id, engine, ops), id, Untrusted(ops))
    ensures (forall i :: 0 <= i < |ops| ==> Smooth(ops[i])) ==> Exact(Run(cfg, id, engine, ops), id, Untrusted(ops))
  {
    if ops != [] {
      var n := |ops| - 1;
      AlertsFollowEndpoint(cfg, id, engine, ops[..n]);
      StepKeeps(cfg, id, Run(cfg, id, engine, ops[..n]), ops[n], Untrusted(ops[..n]), Untrusted(ops));
    }
  }

  // The keys, and the severities behind them.
  lemma KeysAre(id: string)
    ensures OutageKey(id) == A.Key("endpoint", "consecutive_failure", "endpoint", id)
    ensures CertKey(id) == A.Key("endpoint", "certificate_untrusted", "endpoint", id)
  {
  }

  ghost predicate Graded(engine: A.State, id: string) {
    && (OutageKey(id) in engine.active ==> engine.active[OutageKey(id)].body.severity == "critical")
    && (CertKey(id) in engine.active ==> engine.active[CertKey(id)].body.severity == "warning")
  }

  lemma CertGraded(engine: A.State, id: string, r: E.Result, name: string, d: Delivery)
    requires Graded(engine, id)
    ensures Graded(CertSignalled(engine, id, r, name, d), id)
  {
    if r.degraded || r.success {
      var e := EventFor(CertKey(id), if r.degraded then "warning" else "info", name, !r.degraded);
      OneKey(engine, e, d.silenced, d.cert, OutageKey(id));
    }
  }

  lemma OutageGraded(engine: A.State, id: string, s: E.Signal, name: string, d: Delivery)
    requires Graded(engine, id)
    ensures Graded(OutageSignalled(engine, id, s, name, d), id)
  {
    if s != E.Quiet {
      var e := EventFor(OutageKey(id), if s == E.Alert then "critical" else "info", name, s == E.Recovery);
      OneKey(engine, e, d.silenced, d.outage, CertKey(id));
    }
  }

  /** In every run an active outage alert of the endpoint is critical and an active certificate
      alert a warning. */
  lemma {:induction false} AlertsAreGraded(cfg: E.Config, id: string, engine: A.State, ops: seq<Op>)
    requires OutageKey(id) !in engine.active && CertKey(id) !in engine.active
    requires forall i :: 0 <= i < |ops| ==> Foreign(ops[i], id)
    ensures Graded(Run(cfg, id, engine, ops).engine, id)
  {
    if ops != [] {
      var n := |ops| - 1;
      var s := Run(cfg, id, engine, ops[..n]);
      AlertsAreGraded(cfg, id, engine, ops[..n]);
      match ops[n]
      case Other(o) =>
        OtherLeavesKeys(s.engine, o, id, OutageKey(id));
        OtherLeavesKeys(s.engine, o, id, CertKey(id));
      case Check(r, name, d) =>
        CertGraded(s.engine, id, r, name, d);
        OutageGraded(CertSignalled(s.engine, id, r, name, d), id, E.Emit(cfg, s.endpoint, r), name, d);
    }
  }

  // The checks of a run, without the other traffic.
  function Results(ops: seq<Op>): seq<E.Result> {
    if ops == [] then []
    else
      var n := |ops| - 1;
      if ops[n].Check? then Results(ops[..n]) + [ops[n].result] else Results(ops[..n])
  }

  // The endpoint evolves by its checks alone, so the results about traces apply to it.
  lemma {:induction false} EndpointSeesItsChecks(cfg: E.Config, id: string, engine: A.State, ops: seq<Op>)
    ensures Run(cfg, id, engine, ops).endpoint == E.Run(cfg, Results(ops))
  {
    if ops != [] {
      var n := |ops| - 1;
      EndpointSeesItsChecks(cfg, id, engine, ops[..n]);
      if ops[n].Check? { E.Snoc(cfg, Results(ops[..n]), ops[n].result); }
    }
  }

  /** With nothing failing or silenced, the outage alert is active exactly when the last
      signal of the endpoint's own trace was an alert. */
  lemma OutageAlertIffLastSignal(cfg: E.Config, id: string, engine: A.State, ops: seq<Op>)
    requires OutageKey(id) !in engine.active && CertKey(id) !in engine.active
    requires forall i :: 0 <= i < |ops| ==> Foreign(ops[i], id) && Smooth(ops[i])
    ensures OutageKey(id) in Run(cfg, id, engine, ops).engine.active <==>
      E.LastSignalIsAlert(E.Signals(cfg, Results(ops)))
  {
    AlertsFollowEndpoint(cfg, id, engine, ops);
    EndpointSeesItsChecks(cfg, id, engine, ops);
    E.AlertingIffLastAlert(cfg, Results(ops));
  }
}
