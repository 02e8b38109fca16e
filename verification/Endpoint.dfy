/**
 Endpoint checks: the consecutive counters, the reported status and the alert hysteresis,
 with fixed thresholds and successful writes. A replayed result is recorded and nothing else.
 */
module Endpoint {

  datatype Status = Unknown | Up | Degraded | Down

  datatype Result = Result(success: bool, degraded: bool, replayed: bool)

  datatype Config = Config(failureThreshold: int, recoveryThreshold: int)

  datatype State = State(status: Status, alerting: bool, failures: nat, successes: nat)

  datatype Signal = Quiet | Alert | Recovery

  const INITIAL: State := State(Unknown, false, 0, 0)

  function StatusFor(r: Result): Status {
    if r.success && r.degraded then Degraded else if r.success then Up else Down
  }

  // The counters and status after a live result, before alerts are evaluated.
  function Counted(st: State, r: Result): State {
    if r.success then State(StatusFor(r), st.alerting, 0, st.successes + 1)
    else State(StatusFor(r), st.alerting, st.failures + 1, 0)
  }

  // What the detector says of a counted state.
  function Evaluate(cfg: Config, st: State, r: Result): Signal {
    if !r.success then
      if st.failures >= cfg.failureThreshold && !st.alerting then Alert else Quiet
    else
      if st.successes >= cfg.recoveryThreshold && st.alerting then Recovery else Quiet
  }

  function Emit(cfg: Config, st: State, r: Result): Signal {
    if r.replayed then Quiet else Evaluate(cfg, Counted(st, r), r)
  }

  function Step(cfg: Config, st: State, r: Result): State {
    if r.replayed then st
    else
      match Emit(cfg, st, r)
      case Alert => Counted(st, r).(alerting := true)
      case Recovery => Counted(st, r).(alerting := false)
      case Quiet => Counted(st, r)
  }

  function Run(cfg: Config, trace: seq<Result>): State {
    if trace == [] then INITIAL else Step(cfg, Run(cfg, trace[..|trace| - 1]), trace[|trace| - 1])
  }

  // The alerts and recoveries of a trace, in order.
  function Signals(cfg: Config, trace: seq<Result>): seq<Signal> {
    if trace == [] then []
    else
      var n := |trace| - 1;
      var s := Emit(cfg, Run(cfg, trace[..n]), trace[n]);
      Signals(cfg, trace[..n]) + if s == Quiet then [] else [s]
  }

  function Live(trace: seq<Result>): seq<Result> {
    if trace == [] then []
    else
      var n := |trace| - 1;
      Live(trace[..n]) + if trace[n].replayed then [] else [trace[n]]
  }

  // ------------------------------------------------------------------------ replays

  lemma Snoc(cfg: Config, trace: seq<Result>, r: Result)
    ensures Run(cfg, trace + [r]) == Step(cfg, Run(cfg, trace), r)
    ensures Signals(cfg, trace + [r]) ==
      Signals(cfg, trace) + if Emit(cfg, Run(cfg, trace), r) == Quiet then [] else [Emit(cfg, Run(cfg, trace), r)]
    ensures Live(trace + [r]) == if r.replayed then Live(trace) else Live(trace) + [r]
  {
    LiveSnoc(trace, r);
    assert (trace + [r])[..|trace|] == trace;
  }

  /** Replayed results change nothing: the trace and its live part end in the same state with
      the same alerts and recoveries. */
  lemma {:induction false} ReplaysErased(cfg: Config, trace: seq<Result>)
    ensures Run(cfg, trace) == Run(cfg, Live(trace))
    ensures Signals(cfg, trace) == Signals(cfg, Live(trace))
  {
    if trace != [] {
      var n := |trace| - 1;
      var prefix, r := trace[..n], trace[n];
      ReplaysErased(cfg, prefix);
      assert trace == prefix + [r];
      Snoc(cfg, prefix, r);
      Snoc(cfg, Live(prefix), r);
    }
  }

  // Hence inserting or removing replays anywhere is invisible.
  lemma SameLiveSameRun(cfg: Config, a: seq<Result>, b: seq<Result>)
    requires Live(a) == Live(b)
    ensures Run(cfg, a) == Run(cfg, b) && Signals(cfg, a) == Signals(cfg, b)
  {
    ReplaysErased(cfg, a);
    ReplaysErased(cfg, b);
  }

  // -------------------------------------------------------------------- hysteresis

  // The last `k` results all have this outcome.
  ghost predicate LastAll(s: seq<Result>, k: int, outcome: bool) {
    k <= |s| && forall i :: 0 <= i < |s| && |s| - k <= i ==> s[i].success == outcome
  }

  lemma LastAllSnoc(s: seq<Result>, r: Result, k: int, outcome: bool)
    requires k > 0
    ensures LastAll(s + [r], k, outcome) <==> r.success == outcome && LastAll(s, k - 1, outcome)
  {
    var t := s + [r];
    assert t[|s|] == r && forall i :: 0 <= i < |s| ==> t[i] == s[i];
  }

  /** The counters count the current streak of live results, and the status is that of the
      last live result. */
  lemma {:induction false} CountersAreStreaks(cfg: Config, trace: seq<Result>, k: int)
    ensures Run(cfg, trace).failures >= k <==> LastAll(Live(trace), k, false)
    ensures Run(cfg, trace).successes >= k <==> LastAll(Live(trace), k, true)
    ensures var status, live := Run(cfg, trace).status, Live(trace);
      if live == [] then status == Unknown
      else
        var last := live[|live| - 1];
        && (status == Down <==> !last.success)
        && (status == Up <==> last.success && !last.degraded)
        && (status == Degraded <==> last.success && last.degraded)
  {
    if trace != [] {
      var n := |trace| - 1;
      var prefix, r := trace[..n], trace[n];
      assert trace == prefix + [r];
      Snoc(cfg, prefix, r);
      CountersAreStreaks(cfg, prefix, k);
      CountersAreStreaks(cfg, prefix, k - 1);
      StreakGrows(Run(cfg, prefix), Live(prefix), r, k);
    }
  }

  lemma StreakGrows(st: State, live: seq<Result>, r: Result, k: int)
    requires st.failures >= k - 1 <==> LastAll(live, k - 1, false)
    requires st.successes >= k - 1 <==> LastAll(live, k - 1, true)
    ensures Counted(st, r).failures >= k <==> LastAll(live + [r], k, false)
    ensures Counted(st, r).successes >= k <==> LastAll(live + [r], k, true)
  {
    if k > 0 {
      LastAllSnoc(live, r, k, false);
      LastAllSnoc(live, r, k, true);
    }
  }

  ghost predicate Alternates(s: seq<Signal>) {
    forall i :: 0 <= i < |s| ==> s[i] == if i % 2 == 0 then Alert else Recovery
  }

  /** Alerts and recoveries strictly alternate, starting with an alert, and the endpoint is
      alerting exactly when the last signal was an alert. */
  lemma {:induction false} SignalsAlternate(cfg: Config, trace: seq<Result>)
    ensures Alternates(Signals(cfg, trace))
    ensures Run(cfg, trace).alerting <==> |Signals(cfg, trace)| % 2 == 1
  {
    if trace != [] { SignalsAlternate(cfg, trace[..|trace| - 1]); }
  }

  ghost predicate LastSignalIsAlert(s: seq<Signal>) {
    s != [] && s[|s| - 1] == Alert
  }

  lemma AlertingIffLastAlert(cfg: Config, trace: seq<Result>)
    ensures Run(cfg, trace).alerting <==> LastSignalIsAlert(Signals(cfg, trace))
  {
    SignalsAlternate(cfg, trace);
    var s := Signals(cfg, trace);
    if s != [] { assert s[|s| - 1] == if (|s| - 1) % 2 == 0 then Alert else Recovery; }
  }

  /** An alert is raised exactly on a live failure that completes a streak of at least
      FailureThreshold live failures while no alert is outstanding; a recovery exactly on a
      live success that completes a streak of at least RecoveryThreshold live successes while
      one is. */
  lemma SignalledExactlyOnStreak(cfg: Config, trace: seq<Result>, r: Result)
    ensures var s, live := Emit(cfg, Run(cfg, trace), r), Live(trace + [r]);
      var open := LastSignalIsAlert(Signals(cfg, trace));
      && (s == Alert <==> !r.replayed && !r.success && LastAll(live, cfg.failureThreshold, false) && !open)
      && (s == Recovery <==> !r.replayed && r.success && LastAll(live, cfg.recoveryThreshold, true) && open)
  {
    AlertingIffLastAlert(cfg, trace);
    StreakCompleted(cfg, trace, r, cfg.failureThreshold);
    StreakCompleted(cfg, trace, r, cfg.recoveryThreshold);
    LiveSnoc(trace, r);
  }

  lemma LiveSnoc(trace: seq<Result>, r: Result)
    ensures Live(trace + [r]) == if r.replayed then Live(trace) else Live(trace) + [r]
  {
    assert (trace + [r])[..|trace|] == trace;
  }

  lemma StreakCompleted(cfg: Config, trace: seq<Result>, r: Result, k: int)
    ensures Counted(Run(cfg, trace), r).failures >= k <==> LastAll(Live(trace) + [r], k, false)
    ensures Counted(Run(cfg, trace), r).successes >= k <==> LastAll(Live(trace) + [r], k, true)
  {
    CountersAreStreaks(cfg, trace, k - 1);
    StreakGrows(Run(cfg, trace), Live(trace), r, k);
  }

  // ------------------------------------------------------------------- lost writes

  // What the store does for one result: it finds the endpoint, takes the counters, takes
  // the result, gives the endpoint back, and takes the alert state.
  datatype Store = Store(found: bool, counters: bool, result: bool, again: bool, alertState: bool)

  const WORKING := Store(true, true, true, true, true)

  // The endpoint as the detector finds it, after a write of the counters that may be lost.
  function Reread(st: State, r: Result, w: Store): State {
    if w.counters then Counted(st, r) else st
  }

  function EmitOn(cfg: Config, st: State, r: Result, w: Store): Signal {
    if !w.found || r.replayed || !w.again then Quiet else Evaluate(cfg, Reread(st, r, w), r)
  }

  // The write of the alert state repeats the status with the counters that were found.
  function StepOn(cfg: Config, st: State, r: Result, w: Store): State {
    if !w.found || r.replayed then st
    else
      var row := Reread(st, r, w);
      if EmitOn(cfg, st, r, w) == Quiet || !w.alertState then row
      else row.(status := StatusFor(r), alerting := EmitOn(cfg, st, r, w) == Alert)
  }

  lemma WorkingStore(cfg: Config, st: State, r: Result)
    ensures StepOn(cfg, st, r, WORKING) == Step(cfg, st, r) && EmitOn(cfg, st, r, WORKING) == Emit(cfg, st, r)
  {
  }

  datatype Check = Check(result: Result, store: Store)

  function RunOn(cfg: Config, trace: seq<Check>): State {
    if trace == [] then INITIAL
    else
      var n := |trace| - 1;
      StepOn(cfg, RunOn(cfg, trace[..n]), trace[n].result, trace[n].store)
  }

  function SignalOn(cfg: Config, trace: seq<Check>, n: nat): Signal
    requires n < |trace|
  {
    EmitOn(cfg, RunOn(cfg, trace[..n]), trace[n].result, trace[n].store)
  }

  function SignalsOn(cfg: Config, trace: seq<Check>): seq<Signal> {
    if trace == [] then []
    else
      var n := |trace| - 1;
      SignalsOn(cfg, trace[..n]) + if SignalOn(cfg, trace, n) == Quiet then [] else [SignalOn(cfg, trace, n)]
  }

  // The live results whose counters the store took.
  function Kept(trace: seq<Check>): seq<Result> {
    if trace == [] then []
    else
      var n := |trace| - 1;
      var c := trace[n];
      if c.store.found && c.store.counters && !c.result.replayed then Kept(trace[..n]) + [c.result] else Kept(trace[..n])
  }

  lemma StepOnCounts(cfg: Config, st: State, r: Result, w: Store)
    ensures var st' := StepOn(cfg, st, r, w);
      var row := if w.found && !r.replayed then Reread(st, r, w) else st;
      st'.failures == row.failures && st'.successes == row.successes
  {
  }

  lemma {:induction false} CountersAreKeptStreaks(cfg: Config, trace: seq<Check>, k: int)
    ensures RunOn(cfg, trace).failures >= k <==> LastAll(Kept(trace), k, false)
    ensures RunOn(cfg, trace).successes >= k <==> LastAll(Kept(trace), k, true)
  {
    if trace != [] {
      var n := |trace| - 1;
      var st, c := RunOn(cfg, trace[..n]), trace[n];
      CountersAreKeptStreaks(cfg, trace[..n], k);
      CountersAreKeptStreaks(cfg, trace[..n], k - 1);
      StreakGrows(st, Kept(trace[..n]), c.result, k);
      StepOnCounts(cfg, st, c.result, c.store);
    }
  }

  /** Whatever the store loses, a check raises an alert exactly when it reaches the detector
      as a live failure, the live results whose counters were taken end in at least
      FailureThreshold failures, and the stored state is not alerting; a recovery likewise. */
  lemma SignalledExactlyOnKeptStreak(cfg: Config, trace: seq<Check>, c: Check)
    ensures var s, kept := EmitOn(cfg, RunOn(cfg, trace), c.result, c.store), Kept(trace + [c]);
      var seen := c.store.found && c.store.again && !c.result.replayed;
      var alerting := RunOn(cfg, trace).alerting;
      && (s == Alert <==> seen && !c.result.success && LastAll(kept, cfg.failureThreshold, false) && !alerting)
      && (s == Recovery <==> seen && c.result.success && LastAll(kept, cfg.recoveryThreshold, true) && alerting)
  {
    var st := RunOn(cfg, trace);
    assert (trace + [c])[..|trace|] == trace;
    RereadIsKeptStreak(cfg, trace, c, cfg.failureThreshold);
    RereadIsKeptStreak(cfg, trace, c, cfg.recoveryThreshold);
  }

  /** The stored status is that of the last live result whose counters, or whose signal, the
      store took. */
  lemma StatusStored(cfg: Config, trace: seq<Check>, c: Check)
    ensures var st, r, w := RunOn(cfg, trace), c.result, c.store;
      var signalled := EmitOn(cfg, st, r, w) != Quiet && w.alertState;
      RunOn(cfg, trace + [c]).status ==
        if !w.found || r.replayed || !(w.counters || signalled) then st.status
        else if !r.success then Down else if r.degraded then Degraded else Up
  {
    assert (trace + [c])[..|trace|] == trace;
  }

  lemma RereadIsKeptStreak(cfg: Config, trace: seq<Check>, c: Check, k: int)
    ensures var row, kept := Reread(RunOn(cfg, trace), c.result, c.store), Kept(trace + [c]);
      c.store.found && !c.result.replayed ==>
        && (row.failures >= k <==> LastAll(kept, k, false))
        && (row.successes >= k <==> LastAll(kept, k, true))
  {
    assert (trace + [c])[..|trace|] == trace;
    CountersAreKeptStreaks(cfg, trace, k);
    CountersAreKeptStreaks(cfg, trace, k - 1);
    StreakGrows(RunOn(cfg, trace), Kept(trace), c.result, k);
  }

  lemma TakenBefore(cfg: Config, trace: seq<Check>)
    requires trace != []
    requires forall n :: 0 <= n < |trace| - 1 && SignalOn(cfg, trace, n) != Quiet ==> trace[n].store.alertState
    ensures var before := trace[..|trace| - 1];
      forall n :: 0 <= n < |before| && SignalOn(cfg, before, n) != Quiet ==> before[n].store.alertState
  {
    var before := trace[..|trace| - 1];
    forall n | 0 <= n < |before| && SignalOn(cfg, before, n) != Quiet ensures before[n].store.alertState {
      assert before[..n] == trace[..n];
      assert SignalOn(cfg, trace, n) != Quiet;
    }
  }

  /** Alerts and recoveries alternate whatever counters, results and reads the store loses, as
      long as it takes the alert state of each signal. */
  lemma {:induction false} AlternateDespiteLostWrites(cfg: Config, trace: seq<Check>)
    requires forall n :: 0 <= n < |trace| && SignalOn(cfg, trace, n) != Quiet ==> trace[n].store.alertState
    ensures Alternates(SignalsOn(cfg, trace))
    ensures RunOn(cfg, trace).alerting <==> |SignalsOn(cfg, trace)| % 2 == 1
  {
    if trace != [] {
      var n := |trace| - 1;
      TakenBefore(cfg, trace);
      AlternateDespiteLostWrites(cfg, trace[..n]);
      assert SignalOn(cfg, trace, n) != Quiet ==> trace[n].store.alertState;
    }
  }

  ghost predicate AllWorking(trace: seq<Check>) {
    forall i :: 0 <= i < |trace| ==> trace[i].store == WORKING
  }

  // However the checks go on, on a store that works again, the signals alternate.
  ghost predicate Safe(cfg: Config, trace: seq<Check>) {
    forall more :: AllWorking(more) ==> Alternates(SignalsOn(cfg, trace + more))
  }

  // The stored alert state agrees with the signals that were sent.
  ghost predicate InStep(cfg: Config, trace: seq<Check>) {
    RunOn(cfg, trace).alerting <==> |SignalsOn(cfg, trace)| % 2 == 1
  }

  lemma SnocOn(cfg: Config, trace: seq<Check>, c: Check)
    ensures RunOn(cfg, trace + [c]) == StepOn(cfg, RunOn(cfg, trace), c.result, c.store)
    ensures var s := EmitOn(cfg, RunOn(cfg, trace), c.result, c.store);
      SignalsOn(cfg, trace + [c]) == SignalsOn(cfg, trace) + if s == Quiet then [] else [s]
  {
    assert (trace + [c])[..|trace|] == trace;
  }

  lemma {:induction false} StaysInStep(cfg: Config, trace: seq<Check>, more: seq<Check>)
    requires Alternates(SignalsOn(cfg, trace)) && InStep(cfg, trace) && AllWorking(more)
    ensures Alternates(SignalsOn(cfg, trace + more)) && InStep(cfg, trace + more)
  {
    if more == [] {
      assert trace + more == trace;
    } else {
      var n := |more| - 1;
      StaysInStep(cfg, trace, more[..n]);
      assert trace + more == (trace + more[..n]) + [more[n]];
      SnocOn(cfg, trace + more[..n], more[n]);
    }
  }

  // How many more equal results it takes to signal.
  function Missing(cfg: Config, st: State): nat {
    var d := if st.alerting then cfg.recoveryThreshold - st.successes else cfg.failureThreshold - st.failures;
    if d < 0 then 0 else d
  }

  // Out of step, enough equal results repeat the last signal.
  lemma {:induction false} OutOfStepBreaks(cfg: Config, trace: seq<Check>) returns (more: seq<Check>)
    requires !InStep(cfg, trace)
    ensures AllWorking(more) && !Alternates(SignalsOn(cfg, trace + more))
    decreases Missing(cfg, RunOn(cfg, trace))
  {
    var st := RunOn(cfg, trace);
    var c := Check(Result(st.alerting, false, false), WORKING);
    SnocOn(cfg, trace, c);
    if EmitOn(cfg, st, c.result, WORKING) == Quiet {
      var rest := OutOfStepBreaks(cfg, trace + [c]);
      more := [c] + rest;
      assert trace + more == trace + [c] + rest;
    } else {
      more := [c];
      var n := |SignalsOn(cfg, trace)|;
      assert SignalsOn(cfg, trace + [c])[n] != if n % 2 == 0 then Alert else Recovery;
    }
  }

  /** Whatever the store has lost, the signals alternate in every continuation on a working
      store if and only if they do so far and the stored alert state agrees with them. */
  lemma SafeIff(cfg: Config, trace: seq<Check>)
    ensures Safe(cfg, trace) <==> Alternates(SignalsOn(cfg, trace)) && InStep(cfg, trace)
  {
    if Alternates(SignalsOn(cfg, trace)) && InStep(cfg, trace) {
      forall more | AllWorking(more) ensures Alternates(SignalsOn(cfg, trace + more)) {
        StaysInStep(cfg, trace, more);
      }
    } else if !InStep(cfg, trace) {
      var more := OutOfStepBreaks(cfg, trace);
    } else {
      assert trace + [] == trace && AllWorking([]);
    }
  }

  // A signal keeps the signals alternating, and in step exactly if its alert state is taken.
  lemma SignalStaysInStepIff(cfg: Config, trace: seq<Check>, c: Check)
    requires Alternates(SignalsOn(cfg, trace)) && InStep(cfg, trace)
    requires EmitOn(cfg, RunOn(cfg, trace), c.result, c.store) != Quiet
    ensures Alternates(SignalsOn(cfg, trace + [c])) && (InStep(cfg, trace + [c]) <==> c.store.alertState)
  {
    var st := RunOn(cfg, trace);
    SnocOn(cfg, trace, c);
    SignalToggles(cfg, st, c.result, c.store);
    AlternatesSnoc(SignalsOn(cfg, trace), EmitOn(cfg, st, c.result, c.store), st.alerting);
  }

  lemma SignalToggles(cfg: Config, st: State, r: Result, w: Store)
    requires EmitOn(cfg, st, r, w) != Quiet
    ensures EmitOn(cfg, st, r, w) == if st.alerting then Recovery else Alert
    ensures StepOn(cfg, st, r, w).alerting == if w.alertState then !st.alerting else st.alerting
  {
  }

  lemma AlternatesSnoc(s: seq<Signal>, x: Signal, alerting: bool)
    requires Alternates(s) && (alerting <==> |s| % 2 == 1) && x == if alerting then Recovery else Alert
    ensures Alternates(s + [x]) && (!alerting <==> |s + [x]| % 2 == 1)
  {
  }

  /** When a check signals and every earlier signal had its alert state taken, alternation is
      safe if and only if the store takes the alert state of this one. */
  lemma SafeIffAlertStateTaken(cfg: Config, trace: seq<Check>, c: Check)
    requires forall n :: 0 <= n < |trace| && SignalOn(cfg, trace, n) != Quiet ==> trace[n].store.alertState
    requires EmitOn(cfg, RunOn(cfg, trace), c.result, c.store) != Quiet
    ensures Safe(cfg, trace + [c]) <==> c.store.alertState
  {
    AlternateDespiteLostWrites(cfg, trace);
    SignalStaysInStepIff(cfg, trace, c);
    SafeIff(cfg, trace + [c]);
  }

  /** A lost alert state lets the same alert be raised twice in a row. */
  lemma LostAlertStateRepeats()
    ensures var fail := Result(false, false, false);
      SignalsOn(Config(1, 1), [Check(fail, WORKING.(alertState := false)), Check(fail, WORKING)]) == [Alert, Alert]
  {
    var fail := Result(false, false, false);
    var cfg, lost, kept := Config(1, 1), Check(fail, WORKING.(alertState := false)), Check(fail, WORKING);
    var trace := [lost, kept];
    assert trace[..1] == [lost] && [lost][..0] == [];
    assert RunOn(cfg, [lost]) == State(Down, false, 1, 0);
    assert SignalsOn(cfg, [lost]) == [Alert];
  }

  // -------------------------------------------------------------------- the service

  class Monitor {
    const cfg: Config
    var status: Status
    var alerting: bool
    var failures: nat
    var successes: nat
    var history: seq<Result>

    constructor (cfg: Config)
      ensures this.cfg == cfg && View() == INITIAL && history == []
    {
      this.cfg := cfg;
      status, alerting, failures, successes, history := Unknown, false, 0, 0, [];
    }

    function View(): State
      reads this
    {
      State(status, alerting, failures, successes)
    }

    /** Every result of a known endpoint is recorded once if the store takes it; a status
        change is announced exactly when a live result's status differs from the stored one. */
    method ProcessCheckResult(r: Result, w: Store) returns (changed: bool, signal: Signal)
      modifies this
      ensures history == old(history) + if w.found && w.result then [r] else []
      ensures View() == StepOn(cfg, old(View()), r, w)
      ensures signal == EmitOn(cfg, old(View()), r, w)
      ensures changed <==> w.found && !r.replayed && StatusFor(r) != old(status)
      ensures w.found && w.counters && !r.replayed ==>
        status == (if !r.success then Down else if r.degraded then Degraded else Up)
    {
      changed, signal := false, Quiet;
      if !w.found {
        return;
      }
      if r.replayed {
        if w.result {
          history := history + [r];
        }
        return;
      }
      var fails, passes := failures, successes;
      if r.success {
        passes, fails := passes + 1, 0;
      } else {
        fails, passes := fails + 1, 0;
      }
      changed := StatusFor(r) != status;
      if w.counters {
        status, failures, successes := StatusFor(r), fails, passes;
      }
      if w.result {
        history := history + [r];
      }
      if !w.again {
        return;
      }
      signal := Evaluate(cfg, View(), r);
      if signal != Quiet && w.alertState {
        status, alerting := StatusFor(r), signal == Alert;
      }
    }
  }
}
