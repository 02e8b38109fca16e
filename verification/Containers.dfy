/**
 The container store and its feeders: live events, agent reports, agent inventories and the
 offline reconciliation, with successful writes. A container is identified by its agent and
 its runtime id; its transition log is kept in insertion order.
 */
module Containers {
  import opened ContainerStates
  import opened Options

  datatype Key = Key(agent: string, ext: string)

  datatype Row = Row(state: ContainerState, health: Option<string>, archived: bool, image: string, hasHealthCheck: bool)

  datatype Transition = Transition(from: ContainerState, to: ContainerState, newHealth: Option<string>)

  datatype State = State(rows: map<Key, Row>, log: map<Key, seq<Transition>>)

  const LOCAL: string := "local"

  function LogOf(st: State, k: Key): seq<Transition> {
    if k in st.log then st.log[k] else []
  }

  // ------------------------------------------------------------------- single rows

  function Append(st: State, k: Key, t: Transition): State {
    st.(log := st.log[k := LogOf(st, k) + [t]])
  }

  function SetState(st: State, k: Key, target: ContainerState): State {
    if k !in st.rows || st.rows[k].state == target then st
    else
      var prev := st.rows[k].state;
      Append(st.(rows := st.rows[k := st.rows[k].(state := target)]), k, Transition(prev, target, None))
  }

  function SetHealth(st: State, k: Key, health: string): State {
    if k !in st.rows then st
    else
      var s := st.rows[k].state;
      Append(st.(rows := st.rows[k := st.rows[k].(health := Some(health))]), k, Transition(s, s, Some(health)))
  }

  function Archive(st: State, k: Key): State {
    if k !in st.rows then st else st.(rows := st.rows[k := st.rows[k].(archived := true)])
  }

  // An upsert: a row with the same identity is overwritten. The initial transition is
  // recorded unless the container is still in its created state.
  function Insert(st: State, k: Key, row: Row): State {
    var st' := st.(rows := st.rows[k := row]);
    if row.state == Created then st' else Append(st', k, Transition(Created, row.state, None))
  }

  // ------------------------------------------------------------------ agent reports

  datatype Reported = RRunning | RExited | RPaused | RRestarting | RDead | RCreated | RUnspecified

  datatype Report = Report(ext: string, destroyed: bool, state: Reported, health: string, exit: Option<int>,
                           image: string, hasHealthCheck: bool)

  function InitialState(r: Reported): ContainerState {
    match r
    case RRunning => Running
    case RExited => Exited
    case RPaused => Paused
    case RRestarting => Restarting
    case RDead => Dead
    case RCreated => Created
    case RUnspecified => Running
  }

  predicate Graceful(code: int) { code == 0 || code == 137 || code == 143 }

  // The state a "die" leads to; `exit` is the parsed code, absent when the field is empty.
  function Died(exit: Option<int>): ContainerState {
    if exit.Some? && Graceful(exit.value) then Completed else Exited
  }

  // Of the actions a report maps to, only start, die and pause are acted on.
  function ReportedChange(st: State, k: Key, r: Report): State {
    match r.state
    case RRunning => SetState(st, k, Running)
    case RExited => SetState(st, k, Died(r.exit))
    case RDead => SetState(st, k, Died(r.exit))
    case RPaused => SetState(st, k, Paused)
    case _ => st
  }

  function ReportedHealth(st: State, k: Key, r: Report): State
    requires k in st.rows
  {
    if r.health != "" && st.rows[k].health != Some(r.health) then SetHealth(st, k, r.health) else st
  }

  function Refresh(row: Row, r: Report): Row {
    row.(image := if r.image != "" then r.image else row.image,
         hasHealthCheck := row.hasHealthCheck || r.hasHealthCheck, archived := false)
  }

  function NewRow(r: Report): Row {
    Row(InitialState(r.state), if r.health != "" then Some(r.health) else None, false, r.image, r.hasHealthCheck || r.health != "")
  }

  function AgentEvent(st: State, agent: string, r: Report): State {
    var k := Key(agent, r.ext);
    if r.ext == "" then st
    else if r.destroyed then Archive(st, k)
    else if k !in st.rows then Insert(st, k, NewRow(r))
    else ReportedChange(ReportedHealth(st.(rows := st.rows[k := Refresh(st.rows[k], r)]), k, r), k, r)
  }

  function AgentEvents(st: State, agent: string, reports: seq<Report>): State {
    if reports == [] then st
    else
      var n := |reports| - 1;
      AgentEvent(AgentEvents(st, agent, reports[..n]), agent, reports[n])
  }

  function LiveIds(reports: seq<Report>): set<string> {
    set r | r in reports && r.ext != "" :: r.ext
  }

  function ArchiveMissing(st: State, agent: string, live: set<string>): State {
    st.(rows := ArchiveEach(st.rows, set k | k in st.rows && k.agent == agent && !st.rows[k].archived && k.ext !in live))
  }

  function ArchiveEach(rows: map<Key, Row>, gone: set<Key>): map<Key, Row> {
    map k | k in rows :: if k in gone then rows[k].(archived := true) else rows[k]
  }

  function Inventory(st: State, agent: string, reports: seq<Report>, complete: bool): State {
    if reports == [] && !complete then st
    else ArchiveMissing(AgentEvents(st, agent, reports), agent, LiveIds(reports))
  }

  // ----------------------------------------------------------------- reconciliation

  datatype Found = Found(ext: string, state: ContainerState, health: Option<string>, image: string, hasHealthCheck: bool)

  function FoundRow(f: Found): Row { Row(f.state, f.health, false, f.image, f.hasHealthCheck) }

  // The discovered containers by id; a later entry wins.
  function ById(found: seq<Found>): map<string, Found> {
    if found == [] then map[] else ById(found[..|found| - 1])[found[|found| - 1].ext := found[|found| - 1]]
  }

  predicate IsStored(st: State, k: Key) {
    k in st.rows && k.agent == LOCAL && !st.rows[k].archived
  }

  function StoredIds(st: State): set<string> {
    set k | k in st.rows && IsStored(st, k) :: k.ext
  }

  function SyncOne(st: State, k: Key, byId: map<string, Found>): State
    requires k in st.rows
  {
    if k.ext !in byId then Archive(st, k) else SetState(st, k, byId[k.ext].state)
  }

  predicate Moves(st: State, k: Key, byId: map<string, Found>) {
    IsStored(st, k) && k.ext in byId && st.rows[k].state != byId[k.ext].state
  }

  function SyncRows(st: State, byId: map<string, Found>, done: set<Key>): map<Key, Row> {
    map k | k in st.rows :: if k in done && IsStored(st, k) then SyncOne(st, k, byId).rows[k] else st.rows[k]
  }

  function SyncLogs(st: State, byId: map<string, Found>, done: set<Key>): map<Key, seq<Transition>> {
    map k | k in st.log.Keys + (set x | x in done && Moves(st, x, byId)) ::
      if k in done && Moves(st, k, byId) then LogOf(SyncOne(st, k, byId), k) else LogOf(st, k)
  }

  // First loop, over the rows in `done`: each stored local row follows what was discovered,
  // or is archived.
  function SyncSome(st: State, byId: map<string, Found>, done: set<Key>): State {
    State(SyncRows(st, byId, done), SyncLogs(st, byId, done))
  }

  function Sync(st: State, byId: map<string, Found>): State {
    SyncSome(st, byId, st.rows.Keys)
  }

  // Second loop: what was not stored before the first loop is inserted.
  function InsertMissing(st: State, stored: set<string>, found: seq<Found>): State {
    if found == [] then st
    else
      var n := |found| - 1;
      var st' := InsertMissing(st, stored, found[..n]);
      if found[n].ext in stored then st' else Insert(st', Key(LOCAL, found[n].ext), FoundRow(found[n]))
  }

  function Reconcile(st: State, found: seq<Found>): State {
    InsertMissing(Sync(st, ById(found)), StoredIds(st), found)
  }

  // -------------------------------------------------------------------- live events

  datatype Action = Start | Stop | Die | Kill | Pause | Unpause | Destroy | HealthStatus | Unhandled

  datatype Event = Event(key: Key, action: Action, exit: Option<int>, health: string)

  // `discovered` is what the runtime lists, when there is a runtime to ask.
  function StateChange(st: State, k: Key, target: ContainerState, discovered: Option<seq<Found>>): State {
    if k in st.rows then SetState(st, k, target)
    else if target == Running && discovered.Some? && k.agent == LOCAL then Reconcile(st, discovered.value)
    else st
  }

  function ProcessEvent(st: State, e: Event, discovered: Option<seq<Found>>): State {
    match e.action
    case Start => StateChange(st, e.key, Running, discovered)
    case Stop =>
      if e.key in st.rows && st.rows[e.key].state == Completed then st else StateChange(st, e.key, Exited, discovered)
    case Die => StateChange(st, e.key, Died(e.exit), discovered)
    case Kill => StateChange(st, e.key, Exited, discovered)
    case Pause => StateChange(st, e.key, Paused, discovered)
    case Unpause => StateChange(st, e.key, Running, discovered)
    case Destroy => Archive(st, e.key)
    case HealthStatus => SetHealth(st, e.key, e.health)
    case Unhandled => st
  }

  // ------------------------------------------------------------------ paths of states

  // A connected path of transitions from the created state to `end`.
  ghost predicate Path(log: seq<Transition>, end: ContainerState) {
    if log == [] then end == Created
    else log[|log| - 1].to == end && Path(log[..|log| - 1], log[|log| - 1].from)
  }

  // The same, read as a chain from the front.
  lemma {:induction false} PathIsChain(log: seq<Transition>, end: ContainerState)
    ensures Path(log, end) <==>
      && (if log == [] then end == Created else log[0].from == Created && log[|log| - 1].to == end)
      && (forall i :: 0 <= i < |log| - 1 ==> log[i].to == log[i + 1].from)
  {
    if |log| > 1 {
      var n := |log| - 1;
      PathIsChain(log[..n], log[n].from);
      assert log[n - 1].to == log[..n][|log[..n]| - 1].to;
      assert (forall i :: 0 <= i < n - 1 ==> log[..n][i].to == log[..n][i + 1].from)
        <==> (forall i :: 0 <= i < n - 1 ==> log[i].to == log[i + 1].from) by {
        assert forall i :: 0 <= i < n ==> log[..n][i] == log[i];
      }
    }
  }

  lemma PathAppend(log: seq<Transition>, end: ContainerState, t: Transition)
    requires Path(log, end)
    ensures Path(log + [t], t.to) <==> t.from == end
  {
    assert (log + [t])[..|log|] == log;
    if Path(log, t.from) { PathEndsOnce(log, end, t.from); }
  }

  lemma PathEndsOnce(log: seq<Transition>, end: ContainerState, end': ContainerState)
    requires Path(log, end) && Path(log, end')
    ensures end == end'
  {
  }

  ghost predicate KeyOk(st: State, k: Key) {
    if k in st.rows then Path(LogOf(st, k), st.rows[k].state) else LogOf(st, k) == []
  }

  ghost predicate PathsOk(st: State) {
    forall k :: KeyOk(st, k)
  }

  // The two states hold the same about a container.
  ghost predicate SameAt(st: State, st': State, k: Key) {
    (k in st.rows <==> k in st'.rows) && (k in st.rows ==> st'.rows[k] == st.rows[k]) && LogOf(st', k) == LogOf(st, k)
  }

  // ------------------------------------------------------- single rows keep their path

  lemma SetStateKeeps(st: State, k: Key, target: ContainerState)
    requires KeyOk(st, k)
    ensures KeyOk(SetState(st, k, target), k)
    ensures forall x :: x != k ==> SameAt(st, SetState(st, k, target), x)
  {
    if k in st.rows { PathAppend(LogOf(st, k), st.rows[k].state, Transition(st.rows[k].state, target, None)); }
  }

  lemma SetHealthKeeps(st: State, k: Key, health: string)
    requires KeyOk(st, k)
    ensures KeyOk(SetHealth(st, k, health), k)
    ensures forall x :: x != k ==> SameAt(st, SetHealth(st, k, health), x)
  {
    if k in st.rows {
      PathAppend(LogOf(st, k), st.rows[k].state, Transition(st.rows[k].state, st.rows[k].state, Some(health)));
    }
  }

  /** An insert keeps the container's path exactly when it lands on no row, or on one whose
      state is still "created": over any other row the initial transition starts again from
      "created" and breaks the chain. */
  lemma InsertKeepsPathIff(st: State, k: Key, row: Row)
    requires KeyOk(st, k)
    ensures KeyOk(Insert(st, k, row), k) <==> k !in st.rows || st.rows[k].state == Created
    ensures forall x :: x != k ==> SameAt(st, Insert(st, k, row), x)
  {
    var t := Transition(Created, row.state, None);
    if k in st.rows {
      PathAppend(LogOf(st, k), st.rows[k].state, t);
      if Path(LogOf(st, k), Created) { PathEndsOnce(LogOf(st, k), st.rows[k].state, Created); }
    } else {
      PathAppend([], Created, t);
    }
  }

  /** Concretely: a container that ran, was archived, and is discovered running again. */
  lemma ReappearingContainerBreaksPath()
    ensures var k, ran := Key(LOCAL, "c"), Found("c", Running, None, "", false);
      var st := Reconcile(Reconcile(State(map[], map[]), [ran]), []);
      KeyOk(st, k) && !KeyOk(Reconcile(st, [ran]), k)
  {
    var k, ran := Key(LOCAL, "c"), Found("c", Running, None, "", false);
    var empty := State(map[], map[]);
    DiscoveredOnce(empty, ran, k);
    LeftBehind(Reconcile(empty, [ran]), k);
    DiscoveredAgain(Reconcile(Reconcile(empty, [ran]), []), ran, k);
  }

  lemma ByIdOne(f: Found)
    ensures ById([f]) == map[f.ext := f]
  {
    assert [f][..0] == [];
  }

  lemma DiscoveredOnce(st: State, f: Found, k: Key)
    requires k == Key(LOCAL, f.ext) && k !in st.rows && LogOf(st, k) == []
    ensures var st' := Reconcile(st, [f]); IsStored(st', k) && st'.rows[k].state == f.state && KeyOk(st', k)
  {
    ByIdOne(f);
    ReconcileAt(st, [f], k);
    InsertKeepsPathIff(st, k, FoundRow(f));
  }

  lemma LeftBehind(st: State, k: Key)
    requires IsStored(st, k) && KeyOk(st, k)
    ensures var st' := Reconcile(st, []);
      k in st'.rows && st'.rows[k].archived && st'.rows[k].state == st.rows[k].state && KeyOk(st', k)
  {
    ReconcileAt(st, [], k);
  }

  lemma DiscoveredAgain(st: State, f: Found, k: Key)
    requires k == Key(LOCAL, f.ext) && k in st.rows && st.rows[k].archived && st.rows[k].state != Created && KeyOk(st, k)
    ensures !KeyOk(Reconcile(st, [f]), k)
  {
    ByIdOne(f);
    ReconcileAt(st, [f], k);
    InsertKeepsPathIff(st, k, FoundRow(f));
  }

  // --------------------------------------------------------------- agent reports

  lemma ReportedHealthKeeps(st: State, k: Key, r: Report)
    requires KeyOk(st, k) && k in st.rows
    ensures KeyOk(ReportedHealth(st, k, r), k)
  {
    SetHealthKeeps(st, k, r.health);
  }

  lemma ReportedChangeKeeps(st: State, k: Key, r: Report)
    requires KeyOk(st, k)
    ensures KeyOk(ReportedChange(st, k, r), k)
  {
    SetStateKeeps(st, k, Running);
    SetStateKeeps(st, k, Died(r.exit));
    SetStateKeeps(st, k, Paused);
  }

  lemma AgentEventKeepsOwn(st: State, agent: string, r: Report)
    requires KeyOk(st, Key(agent, r.ext))
    ensures KeyOk(AgentEvent(st, agent, r), Key(agent, r.ext))
  {
    var k := Key(agent, r.ext);
    if r.ext != "" && !r.destroyed {
      if k !in st.rows {
        InsertKeepsPathIff(st, k, NewRow(r));
      } else {
        var st1 := st.(rows := st.rows[k := Refresh(st.rows[k], r)]);
        ReportedHealthKeeps(st1, k, r);
        ReportedChangeKeeps(ReportedHealth(st1, k, r), k, r);
      }
    }
  }

  lemma AgentEventLeavesOthers(st: State, agent: string, r: Report, x: Key)
    requires x != Key(agent, r.ext)
    ensures SameAt(st, AgentEvent(st, agent, r), x)
  {
  }

  lemma AgentEventKeeps(st: State, agent: string, r: Report)
    requires PathsOk(st)
    ensures PathsOk(AgentEvent(st, agent, r))
  {
    forall x ensures KeyOk(AgentEvent(st, agent, r), x) {
      assert KeyOk(st, x);
      if x == Key(agent, r.ext) { AgentEventKeepsOwn(st, agent, r); } else { AgentEventLeavesOthers(st, agent, r, x); }
    }
  }

  lemma {:induction false} AgentEventsKeep(st: State, agent: string, reports: seq<Report>)
    requires PathsOk(st)
    ensures PathsOk(AgentEvents(st, agent, reports))
  {
    if reports != [] {
      var n := |reports| - 1;
      AgentEventsKeep(st, agent, reports[..n]);
      AgentEventKeeps(AgentEvents(st, agent, reports[..n]), agent, reports[n]);
    }
  }

  // A report leaves its container unarchived, or archived if it says destroyed.
  lemma AgentEventSettles(st: State, agent: string, r: Report)
    requires r.ext != ""
    ensures var st' := AgentEvent(st, agent, r); var k := Key(agent, r.ext);
      k in st'.rows && !st'.rows[k].archived <==> !r.destroyed
  {
  }

  // The last entry for an id says it is alive.
  function Keeps(reports: seq<Report>, ext: string): bool {
    if reports == [] then false
    else if reports[|reports| - 1].ext == ext then !reports[|reports| - 1].destroyed
    else Keeps(reports[..|reports| - 1], ext)
  }

  lemma LiveIdsSnoc(prefix: seq<Report>, r: Report, ext: string)
    ensures ext in LiveIds(prefix + [r]) <==> ext in LiveIds(prefix) || (r.ext == ext && ext != "")
  {
    assert forall x :: x in prefix + [r] <==> x in prefix || x == r;
  }

  lemma {:induction false} AgentEventsSettle(st: State, agent: string, reports: seq<Report>, k: Key)
    ensures var st' := AgentEvents(st, agent, reports);
      if k.agent == agent && k.ext in LiveIds(reports) then k in st'.rows && !st'.rows[k].archived <==> Keeps(reports, k.ext)
      else SameAt(st, st', k)
  {
    if reports != [] {
      var n := |reports| - 1;
      var prefix, r := reports[..n], reports[n];
      AgentEventsSettle(st, agent, prefix, k);
      var before := AgentEvents(st, agent, prefix);
      if r.ext != "" && Key(agent, r.ext) == k { AgentEventSettles(before, agent, r); }
      if Key(agent, r.ext) != k { AgentEventLeavesOthers(before, agent, r, k); }
      assert reports == prefix + [r];
      LiveIdsSnoc(prefix, r, k.ext);
    }
  }

  /** After an inventory that is not an incomplete empty one, the agent's unarchived
      containers are exactly the non-empty ids whose last entry is not destroyed; no other
      agent's container changes, and if every transition log was a path it stays one. */
  lemma InventoryConverges(st: State, agent: string, reports: seq<Report>, complete: bool, k: Key)
    requires reports != [] || complete
    ensures var st' := Inventory(st, agent, reports, complete);
      && (PathsOk(st) ==> PathsOk(st'))
      && (k.agent == agent ==> (k in st'.rows && !st'.rows[k].archived <==> k.ext != "" && Keeps(reports, k.ext)))
      && (k.agent != agent ==> SameAt(st, st', k))
  {
    var mid := AgentEvents(st, agent, reports);
    var st' := Inventory(st, agent, reports, complete);
    AgentEventsSettle(st, agent, reports, k);
    if PathsOk(st) {
      AgentEventsKeep(st, agent, reports);
      forall x ensures KeyOk(st', x) { assert KeyOk(mid, x); }
    }
    if Keeps(reports, k.ext) { KeptIsReported(reports, k.ext); }
  }

  lemma {:induction false} KeptIsReported(reports: seq<Report>, ext: string)
    requires Keeps(reports, ext)
    ensures exists r :: r in reports && r.ext == ext
    ensures ext != "" ==> ext in LiveIds(reports)
  {
    var n := |reports| - 1;
    if reports[n].ext == ext {
      assert reports[n] in reports;
    } else {
      KeptIsReported(reports[..n], ext);
      assert forall r :: r in reports[..n] ==> r in reports;
    }
  }

  // --------------------------------------------------------------- reconciliation

  ghost predicate DistinctIds(found: seq<Found>) {
    forall i, j :: 0 <= i < j < |found| ==> found[i].ext != found[j].ext
  }

  lemma {:induction false} ByIdMember(found: seq<Found>, ext: string)
    ensures ext in ById(found) <==> exists f :: f in found && f.ext == ext
    ensures ext in ById(found) ==> ById(found)[ext] in found && ById(found)[ext].ext == ext
  {
    if found != [] {
      var n := |found| - 1;
      ByIdMember(found[..n], ext);
      assert found == found[..n] + [found[n]];
    }
  }

  // Each missing container is inserted once, each other one is left alone.
  lemma {:induction false} InsertMissingAt(st: State, stored: set<string>, found: seq<Found>, k: Key)
    requires DistinctIds(found)
    ensures var st' := InsertMissing(st, stored, found);
      if k.agent == LOCAL && k.ext in ById(found) && k.ext !in stored
      then SameAt(Insert(st, k, FoundRow(ById(found)[k.ext])), st', k)
      else SameAt(st, st', k)
  {
    if found != [] {
      var n := |found| - 1;
      var prefix, f := found[..n], found[n];
      var before := InsertMissing(st, stored, prefix);
      InsertMissingAt(st, stored, prefix, k);
      LastIsNew(found);
      if f.ext !in stored {
        InsertSameAt(st, before, Key(LOCAL, f.ext), FoundRow(f), k);
      }
    }
  }

  // An insert touches one container, and does the same to it in states that agree on it.
  lemma InsertSameAt(st: State, st': State, k: Key, row: Row, x: Key)
    ensures x != k ==> SameAt(st', Insert(st', k, row), x)
    ensures SameAt(st, st', k) ==> SameAt(Insert(st, k, row), Insert(st', k, row), k)
  {
  }

  lemma LastIsNew(found: seq<Found>)
    requires DistinctIds(found) && found != []
    ensures found[|found| - 1].ext !in ById(found[..|found| - 1])
  {
    var n := |found| - 1;
    var prefix := found[..n];
    ByIdMember(prefix, found[n].ext);
    forall g | g in prefix ensures g.ext != found[n].ext {
      var i :| 0 <= i < n && prefix[i] == g;
      assert found[i] == g;
    }
  }

  lemma SyncAt(st: State, byId: map<string, Found>, k: Key)
    ensures var st' := Sync(st, byId);
      if IsStored(st, k) then SameAt(SyncOne(st, k, byId), st', k) else SameAt(st, st', k)
  {
  }

  // What reconciliation does to one container.
  lemma ReconcileAt(st: State, found: seq<Found>, k: Key)
    requires DistinctIds(found)
    ensures var st', byId := Reconcile(st, found), ById(found);
      if IsStored(st, k) then SameAt(SyncOne(st, k, byId), st', k)
      else if k.agent == LOCAL && k.ext in byId then SameAt(Insert(st, k, FoundRow(byId[k.ext])), st', k)
      else SameAt(st, st', k)
  {
    var byId := ById(found);
    SyncAt(st, byId, k);
    InsertMissingAt(Sync(st, byId), StoredIds(st), found, k);
    assert k.agent == LOCAL ==> (IsStored(st, k) <==> k.ext in StoredIds(st)) by {
      if k.agent == LOCAL && k.ext in StoredIds(st) {
        var x :| x in st.rows && IsStored(st, x) && x.ext == k.ext;
        assert x == k;
      }
    }
  }

  /** After reconciling a listing with distinct ids, the local unarchived containers and
      their states are exactly the discovered ones: one that was stored changes in its state
      only, one that was not is stored as discovered, one that is gone is archived as it was;
      no other agent's container changes. */
  lemma ReconcileConverges(st: State, found: seq<Found>, k: Key)
    requires DistinctIds(found)
    ensures var st' := Reconcile(st, found);
      && (IsStored(st', k) <==> k.agent == LOCAL && exists f :: f in found && f.ext == k.ext)
      && (forall f :: f in found && IsStored(st', k) && f.ext == k.ext ==>
            st'.rows[k] == if IsStored(st, k) then st.rows[k].(state := f.state)
                           else Row(f.state, f.health, false, f.image, f.hasHealthCheck))
      && (IsStored(st, k) && !IsStored(st', k) ==> k in st'.rows && st'.rows[k] == st.rows[k].(archived := true))
      && (k.agent != LOCAL ==> SameAt(st, st', k))
  {
    ReconcileAt(st, found, k);
    ByIdMember(found, k.ext);
    forall f | f in found && f.ext == k.ext ensures k.ext in ById(found) && ById(found)[k.ext] == f {
      var i :| 0 <= i < |found| && found[i] == f;
      var g := ById(found)[k.ext];
      var j :| 0 <= j < |found| && found[j] == g;
      assert i == j;
    }
  }

  // Every discovered container that is stored only as an archived row left off as created.
  ghost predicate NothingReappears(st: State, found: seq<Found>) {
    forall f :: f in found && Key(LOCAL, f.ext) in st.rows && st.rows[Key(LOCAL, f.ext)].archived ==>
      st.rows[Key(LOCAL, f.ext)].state == Created
  }

  /** Reconciliation keeps every transition log a path exactly when no discovered container
      reappears over an archived row that had left the created state. */
  lemma ReconcileKeepsPathsIff(st: State, found: seq<Found>)
    requires PathsOk(st) && DistinctIds(found)
    ensures PathsOk(Reconcile(st, found)) <==> NothingReappears(st, found)
  {
    var st' := Reconcile(st, found);
    forall k ensures KeyOk(st', k) <==> Harmless(st, found, k) {
      ReconcileKeyIff(st, found, k);
    }
    if PathsOk(st') {
      forall f | f in found && Key(LOCAL, f.ext) in st.rows && st.rows[Key(LOCAL, f.ext)].archived
        ensures st.rows[Key(LOCAL, f.ext)].state == Created
      {
        assert KeyOk(st', Key(LOCAL, f.ext));
        assert Harmless(st, found, Key(LOCAL, f.ext));
      }
    }
  }

  ghost predicate Harmless(st: State, found: seq<Found>, k: Key) {
    k.agent == LOCAL && k in st.rows && st.rows[k].archived && (exists f :: f in found && f.ext == k.ext) ==>
      st.rows[k].state == Created
  }

  lemma ReconcileKeyIff(st: State, found: seq<Found>, k: Key)
    requires PathsOk(st) && DistinctIds(found)
    ensures KeyOk(Reconcile(st, found), k) <==> Harmless(st, found, k)
  {
    assert KeyOk(st, k);
    ReconcileAt(st, found, k);
    ByIdMember(found, k.ext);
    var byId := ById(found);
    if IsStored(st, k) {
      if k.ext in byId { SetStateKeeps(st, k, byId[k.ext].state); }
    } else if k.agent == LOCAL && k.ext in byId {
      InsertKeepsPathIff(st, k, FoundRow(byId[k.ext]));
    }
  }

  // ------------------------------------------------------------------------- runs

  datatype Op =
    | Live(event: Event, discovered: Option<seq<Found>>)
    | FromAgent(agent: string, report: Report)
    | FromInventory(agent: string, reports: seq<Report>, complete: bool)
    | Offline(found: seq<Found>)

  function Apply(st: State, op: Op): State {
    match op
    case Live(e, discovered) => ProcessEvent(st, e, discovered)
    case FromAgent(agent, r) => AgentEvent(st, agent, r)
    case FromInventory(agent, reports, complete) => Inventory(st, agent, reports, complete)
    case Offline(found) => Reconcile(st, found)
  }

  function Run(ops: seq<Op>): State {
    if ops == [] then State(map[], map[]) else Apply(Run(ops[..|ops| - 1]), ops[|ops| - 1])
  }

  // The listing an operation reconciles the store with, if it does.
  function Listing(st: State, op: Op): Option<seq<Found>> {
    match op
    case Offline(found) => Some(found)
    case Live(e, discovered) =>
      if e.action in {Start, Unpause} && e.key !in st.rows && e.key.agent == LOCAL then discovered else None
    case _ => None
  }

  ghost predicate Distinct(st: State, op: Op) {
    Listing(st, op).Some? ==> DistinctIds(Listing(st, op).value)
  }

  ghost predicate RevivesNothing(st: State, op: Op) {
    Listing(st, op).Some? ==> NothingReappears(st, Listing(st, op).value)
  }

  lemma SetStatePaths(st: State, k: Key, target: ContainerState)
    requires PathsOk(st)
    ensures PathsOk(SetState(st, k, target))
  {
    assert KeyOk(st, k);
    SetStateKeeps(st, k, target);
    forall x ensures KeyOk(SetState(st, k, target), x) { assert KeyOk(st, x); }
  }

  lemma ProcessEventKeeps(st: State, e: Event, discovered: Option<seq<Found>>)
    requires PathsOk(st) && Listing(st, Live(e, discovered)).None?
    ensures PathsOk(ProcessEvent(st, e, discovered))
  {
    match e.action
    case Start => SetStatePaths(st, e.key, Running);
    case Stop => SetStatePaths(st, e.key, Exited);
    case Die => SetStatePaths(st, e.key, Died(e.exit));
    case Kill => SetStatePaths(st, e.key, Exited);
    case Pause => SetStatePaths(st, e.key, Paused);
    case Unpause => SetStatePaths(st, e.key, Running);
    case Destroy =>
      forall x ensures KeyOk(Archive(st, e.key), x) { assert KeyOk(st, x); }
    case HealthStatus =>
      assert KeyOk(st, e.key);
      SetHealthKeeps(st, e.key, e.health);
      forall x ensures KeyOk(SetHealth(st, e.key, e.health), x) { assert KeyOk(st, x); }
    case Unhandled =>
  }

  lemma ListingReconciles(st: State, op: Op)
    requires Listing(st, op).Some?
    ensures Apply(st, op) == Reconcile(st, Listing(st, op).value)
  {
  }

  // One operation keeps the logs paths exactly when it revives nothing.
  lemma ApplyKeepsPathsIff(st: State, op: Op)
    requires PathsOk(st) && Distinct(st, op)
    ensures PathsOk(Apply(st, op)) <==> RevivesNothing(st, op)
  {
    if Listing(st, op).Some? {
      ListingReconciles(st, op);
      ReconcileKeepsPathsIff(st, Listing(st, op).value);
    } else {
      match op
      case Live(e, discovered) => ProcessEventKeeps(st, e, discovered);
      case FromAgent(agent, r) => AgentEventKeeps(st, agent, r);
      case FromInventory(agent, reports, complete) =>
        if reports != [] || complete { InventoryConverges(st, agent, reports, complete, Key(agent, "")); }
    }
  }

  // A log that no later operation can turn back into a path.
  ghost predicate Broken(st: State, k: Key) {
    k in st.rows && !Path(LogOf(st, k), st.rows[k].state) && !Path(LogOf(st, k), Created)
  }

  lemma PathSnoc(log: seq<Transition>, t: Transition, end: ContainerState)
    ensures Path(log + [t], end) <==> t.to == end && Path(log, t.from)
  {
    assert (log + [t])[..|log|] == log;
  }

  // Appending the row's own move, or a fresh start, to a broken log leaves it broken.
  lemma AppendStaysBroken(st: State, k: Key, t: Transition, st': State)
    requires Broken(st, k) && k in st'.rows && LogOf(st', k) == LogOf(st, k) + [t]
    requires t.from == st.rows[k].state || t.from == Created
    ensures Broken(st', k)
  {
    PathSnoc(LogOf(st, k), t, st'.rows[k].state);
    PathSnoc(LogOf(st, k), t, Created);
  }

  lemma SetStateBroken(st: State, k: Key, target: ContainerState, x: Key)
    requires Broken(st, x)
    ensures Broken(SetState(st, k, target), x)
  {
    if x == k && st.rows[k].state != target {
      AppendStaysBroken(st, k, Transition(st.rows[k].state, target, None), SetState(st, k, target));
    }
  }

  lemma SetHealthBroken(st: State, k: Key, health: string, x: Key)
    requires Broken(st, x)
    ensures Broken(SetHealth(st, k, health), x)
  {
    if x == k {
      AppendStaysBroken(st, k, Transition(st.rows[k].state, st.rows[k].state, Some(health)), SetHealth(st, k, health));
    }
  }

  lemma InsertBroken(st: State, k: Key, row: Row)
    requires Broken(st, k)
    ensures Broken(Insert(st, k, row), k)
  {
    if row.state != Created {
      AppendStaysBroken(st, k, Transition(Created, row.state, None), Insert(st, k, row));
    }
  }

  // Inserting over a row that had left the created state breaks its log for good.
  lemma InsertBreaks(st: State, k: Key, row: Row)
    requires KeyOk(st, k) && k in st.rows && st.rows[k].state != Created
    ensures Broken(Insert(st, k, row), k)
  {
    var log := LogOf(st, k);
    if Path(log, Created) { PathEndsOnce(log, st.rows[k].state, Created); }
    PathSnoc(log, Transition(Created, row.state, None), row.state);
    PathSnoc(log, Transition(Created, row.state, None), Created);
  }

  lemma ReportedChangeBroken(st: State, k: Key, r: Report)
    requires Broken(st, k)
    ensures Broken(ReportedChange(st, k, r), k)
  {
    SetStateBroken(st, k, Running, k);
    SetStateBroken(st, k, Died(r.exit), k);
    SetStateBroken(st, k, Paused, k);
  }

  lemma AgentEventBroken(st: State, agent: string, r: Report, x: Key)
    requires Broken(st, x)
    ensures Broken(AgentEvent(st, agent, r), x)
  {
    if x != Key(agent, r.ext) {
      AgentEventLeavesOthers(st, agent, r, x);
    } else if r.ext != "" && !r.destroyed {
      var st1 := st.(rows := st.rows[x := Refresh(st.rows[x], r)]);
      SetHealthBroken(st1, x, r.health, x);
      ReportedChangeBroken(ReportedHealth(st1, x, r), x, r);
    }
  }

  lemma {:induction false} AgentEventsBroken(st: State, agent: string, reports: seq<Report>, x: Key)
    requires Broken(st, x)
    ensures Broken(AgentEvents(st, agent, reports), x)
  {
    if reports != [] {
      var n := |reports| - 1;
      AgentEventsBroken(st, agent, reports[..n], x);
      AgentEventBroken(AgentEvents(st, agent, reports[..n]), agent, reports[n], x);
    }
  }

  lemma ReconcileBroken(st: State, found: seq<Found>, x: Key)
    requires Broken(st, x) && DistinctIds(found)
    ensures Broken(Reconcile(st, found), x)
  {
    ReconcileAt(st, found, x);
    var byId := ById(found);
    if IsStored(st, x) {
      if x.ext in byId { SetStateBroken(st, x, byId[x.ext].state, x); }
    } else if x.agent == LOCAL && x.ext in byId {
      InsertBroken(st, x, FoundRow(byId[x.ext]));
    }
  }

  lemma ProcessEventBroken(st: State, e: Event, discovered: Option<seq<Found>>, x: Key)
    requires Broken(st, x) && Listing(st, Live(e, discovered)).None?
    ensures Broken(ProcessEvent(st, e, discovered), x)
  {
    match e.action
    case Start => SetStateBroken(st, e.key, Running, x);
    case Stop => SetStateBroken(st, e.key, Exited, x);
    case Die => SetStateBroken(st, e.key, Died(e.exit), x);
    case Kill => SetStateBroken(st, e.key, Exited, x);
    case Pause => SetStateBroken(st, e.key, Paused, x);
    case Unpause => SetStateBroken(st, e.key, Running, x);
    case Destroy =>
    case HealthStatus => SetHealthBroken(st, e.key, e.health, x);
    case Unhandled =>
  }

  lemma ApplyBroken(st: State, op: Op, x: Key)
    requires Broken(st, x) && Distinct(st, op)
    ensures Broken(Apply(st, op), x)
  {
    if Listing(st, op).Some? {
      ListingReconciles(st, op);
      ReconcileBroken(st, Listing(st, op).value, x);
    } else {
      match op
      case Live(e, discovered) => ProcessEventBroken(st, e, discovered, x);
      case FromAgent(agent, r) => AgentEventBroken(st, agent, r, x);
      case FromInventory(agent, reports, complete) => AgentEventsBroken(st, agent, reports, x);
    }
  }

  // A revival leaves a log that is broken for good.
  lemma RevivalBreaks(st: State, op: Op) returns (k: Key)
    requires PathsOk(st) && Distinct(st, op) && !RevivesNothing(st, op)
    ensures Broken(Apply(st, op), k)
  {
    var found := Listing(st, op).value;
    var f :| f in found && Key(LOCAL, f.ext) in st.rows && st.rows[Key(LOCAL, f.ext)].archived
      && st.rows[Key(LOCAL, f.ext)].state != Created;
    k := Key(LOCAL, f.ext);
    ListingReconciles(st, op);
    ReconcileAt(st, found, k);
    ByIdMember(found, f.ext);
    assert KeyOk(st, k);
    InsertBreaks(st, k, FoundRow(ById(found)[f.ext]));
  }

  // Every listing of the run names each container once.
  ghost predicate RunDistinct(ops: seq<Op>) {
    ops == [] || (var n := |ops| - 1; RunDistinct(ops[..n]) && Distinct(Run(ops[..n]), ops[n]))
  }

  // No operation of the run revives an archived row that had left the created state.
  ghost predicate RunRevivesNothing(ops: seq<Op>) {
    ops == [] || (var n := |ops| - 1; RunRevivesNothing(ops[..n]) && RevivesNothing(Run(ops[..n]), ops[n]))
  }

  ghost predicate SomeBroken(st: State) {
    exists k :: Broken(st, k)
  }

  lemma SomeStaysBroken(st: State, op: Op)
    requires SomeBroken(st) && Distinct(st, op)
    ensures SomeBroken(Apply(st, op))
  {
    var k :| Broken(st, k);
    ApplyBroken(st, op, k);
  }

  lemma BrokenIsNoPath(st: State)
    requires SomeBroken(st)
    ensures !PathsOk(st)
  {
    var k :| Broken(st, k);
    assert !KeyOk(st, k);
  }

  lemma {:induction false} RunPathsOrBroken(ops: seq<Op>)
    requires RunDistinct(ops)
    ensures if RunRevivesNothing(ops) then PathsOk(Run(ops)) else SomeBroken(Run(ops))
  {
    if ops != [] {
      var n := |ops| - 1;
      RunPathsOrBroken(ops[..n]);
      StepPathsOrBroken(Run(ops[..n]), ops[n], RunRevivesNothing(ops[..n]));
    }
  }

  lemma StepPathsOrBroken(st: State, op: Op, ok: bool)
    requires Distinct(st, op) && if ok then PathsOk(st) else SomeBroken(st)
    ensures if ok && RevivesNothing(st, op) then PathsOk(Apply(st, op)) else SomeBroken(Apply(st, op))
  {
    if !ok {
      SomeStaysBroken(st, op);
    } else if RevivesNothing(st, op) {
      ApplyKeepsPathsIff(st, op);
    } else {
      var k := RevivalBreaks(st, op);
    }
  }

  /** Over every run of live events, health events, agent reports, inventories and offline
      reconciliations whose listings name each container once: every container's transition
      log is a connected path from "created" to its current state exactly when no listing
      ever revived an archived row that had left the created state. */
  lemma LogsArePathsIff(ops: seq<Op>)
    requires RunDistinct(ops)
    ensures PathsOk(Run(ops)) <==> RunRevivesNothing(ops)
  {
    RunPathsOrBroken(ops);
    if !RunRevivesNothing(ops) { BrokenIsNoPath(Run(ops)); }
  }

  // ------------------------------------------------------------- what events lead to

  // The row after an event of a known container, and the transition it leaves, if any.
  ghost predicate LeadsTo(st: State, st': State, k: Key, row: Row, t: Option<Transition>) {
    && k in st'.rows && st'.rows[k] == row
    && LogOf(st', k) == LogOf(st, k) + (if t.Some? then [t.value] else [])
    && forall x :: x != k ==> SameAt(st, st', x)
  }

  // A move to a state leaves a transition exactly if it is a move.
  ghost predicate MovesTo(st: State, st': State, k: Key, target: ContainerState) {
    k in st.rows &&
      var row := st.rows[k];
      LeadsTo(st, st', k, row.(state := target), if row.state == target then None else Some(Transition(row.state, target, None)))
  }

  lemma SetStateMoves(st: State, k: Key, target: ContainerState)
    requires k in st.rows
    ensures MovesTo(st, SetState(st, k, target), k, target)
  {
    assert st.rows[k].(state := st.rows[k].state) == st.rows[k];
  }

  /** What each action does to a container that is known: it runs after a start or unpause, is
      paused after a pause, exited after a kill; a death leaves it completed exactly for the
      exit codes 0, 137 and 143; a stop leaves a completed one completed and any other exited;
      a destroy archives it, and a health report is recorded as a move in place. */
  lemma LiveEventLeadsTo(st: State, e: Event, discovered: Option<seq<Found>>)
    requires e.key in st.rows
    ensures var st', row := ProcessEvent(st, e, discovered), st.rows[e.key];
      && (e.action in {Start, Unpause} ==> MovesTo(st, st', e.key, Running))
      && (e.action == Pause ==> MovesTo(st, st', e.key, Paused))
      && (e.action == Kill ==> MovesTo(st, st', e.key, Exited))
      && (e.action == Die && e.exit in {Some(0), Some(137), Some(143)} ==> MovesTo(st, st', e.key, Completed))
      && (e.action == Die && e.exit !in {Some(0), Some(137), Some(143)} ==> MovesTo(st, st', e.key, Exited))
      && (e.action == Stop && row.state == Completed ==> MovesTo(st, st', e.key, Completed))
      && (e.action == Stop && row.state != Completed ==> MovesTo(st, st', e.key, Exited))
      && (e.action == Destroy ==> LeadsTo(st, st', e.key, row.(archived := true), None))
      && (e.action == HealthStatus ==>
            LeadsTo(st, st', e.key, row.(health := Some(e.health)), Some(Transition(row.state, row.state, Some(e.health)))))
      && (e.action == Unhandled ==> st' == st)
  {
    match e.action
    case Start => SetStateMoves(st, e.key, Running);
    case Stop =>
      SetStateMoves(st, e.key, Exited);
      SetStateMoves(st, e.key, Completed);
    case Die =>
      SetStateMoves(st, e.key, Completed);
      SetStateMoves(st, e.key, Exited);
    case Kill => SetStateMoves(st, e.key, Exited);
    case Pause => SetStateMoves(st, e.key, Paused);
    case Unpause => SetStateMoves(st, e.key, Running);
    case Destroy =>
    case HealthStatus =>
    case Unhandled =>
  }

  // An event of an unknown container does nothing, unless it starts on the local runtime.
  lemma UnknownEventIgnored(st: State, e: Event, discovered: Option<seq<Found>>)
    requires e.key !in st.rows
    ensures ProcessEvent(st, e, discovered) ==
      if e.action in {Start, Unpause} && e.key.agent == "local" && discovered.Some? then Reconcile(st, discovered.value) else st
  {
  }

  // The live event a report of a known container stands for.
  function AsAction(r: Reported): Action {
    match r
    case RRunning => Start
    case RExited => Die
    case RDead => Die
    case RPaused => Pause
    case _ => Unhandled
  }

  /** A report of a known container that is not destroyed first refreshes its row, then acts
      like the health event and the live event it stands for; one that says destroyed acts
      like the destroy event. */
  lemma ReportActsAsEvents(st: State, agent: string, r: Report)
    requires r.ext != "" && Key(agent, r.ext) in st.rows
    ensures var k := Key(agent, r.ext);
      var row := st.rows[k].(archived := false, image := if r.image == "" then st.rows[k].image else r.image,
                             hasHealthCheck := r.hasHealthCheck || st.rows[k].hasHealthCheck);
      var st1 := st.(rows := st.rows[k := row]);
      var st2 := if r.health != "" && row.health != Some(r.health)
        then ProcessEvent(st1, Event(k, HealthStatus, None, r.health), None) else st1;
      AgentEvent(st, agent, r) ==
        if r.destroyed then ProcessEvent(st, Event(k, Destroy, None, ""), None)
        else ProcessEvent(st2, Event(k, AsAction(r.state), r.exit, ""), None)
  {
  }

  /** A report of an unknown container inserts it in the state it reports, running if it
      reports none, with its health if it has any, unarchived and with its first transition. */
  lemma ReportInserts(st: State, agent: string, r: Report)
    requires r.ext != "" && !r.destroyed && Key(agent, r.ext) !in st.rows && LogOf(st, Key(agent, r.ext)) == []
    ensures var st', k := AgentEvent(st, agent, r), Key(agent, r.ext);
      && k in st'.rows && !st'.rows[k].archived && st'.rows[k].image == r.image
      && st'.rows[k].health == (if r.health == "" then None else Some(r.health))
      && (st'.rows[k].hasHealthCheck <==> r.hasHealthCheck || r.health != "")
      && (st'.rows[k].state == Running <==> r.state in {RRunning, RUnspecified})
      && (st'.rows[k].state == Exited <==> r.state == RExited) && (st'.rows[k].state == Paused <==> r.state == RPaused)
      && (st'.rows[k].state == Restarting <==> r.state == RRestarting) && (st'.rows[k].state == Dead <==> r.state == RDead)
      && (st'.rows[k].state == Created <==> r.state == RCreated)
      && LogOf(st', k) == (if r.state == RCreated then [] else [Transition(Created, st'.rows[k].state, None)])
  {
  }

  // ------------------------------------------------------------------- the service

  lemma SyncRowsMore(st: State, byId: map<string, Found>, done: set<Key>, k: Key)
    requires IsStored(st, k) && k !in done
    ensures SyncRows(st, byId, done + {k}) == SyncRows(st, byId, done)[k := SyncOne(st, k, byId).rows[k]]
  {
  }

  lemma SyncLogsMore(st: State, byId: map<string, Found>, done: set<Key>, k: Key)
    requires IsStored(st, k) && k !in done
    ensures SyncLogs(st, byId, done + {k}) ==
      if Moves(st, k, byId) then SyncLogs(st, byId, done)[k := LogOf(SyncOne(st, k, byId), k)]
      else SyncLogs(st, byId, done)
  {
  }

  // The row is still as it was when the loop reaches it.
  lemma SyncUntouched(st: State, byId: map<string, Found>, done: set<Key>, k: Key)
    requires IsStored(st, k) && k !in done
    ensures k in SyncRows(st, byId, done) && SyncRows(st, byId, done)[k] == st.rows[k]
    ensures LogOf(SyncSome(st, byId, done), k) == LogOf(st, k)
  {
  }

  lemma SyncOneMore(st: State, byId: map<string, Found>, done: set<Key>, k: Key)
    requires IsStored(st, k) && k !in done
    ensures k in SyncSome(st, byId, done).rows
    ensures SyncSome(st, byId, done + {k}) == SyncOne(SyncSome(st, byId, done), k, byId)
  {
    SyncUntouched(st, byId, done, k);
    SyncRowsMore(st, byId, done, k);
    SyncLogsMore(st, byId, done, k);
  }

  lemma ArchiveNone(rows: map<Key, Row>)
    ensures ArchiveEach(rows, {}) == rows
  {
  }

  lemma ArchiveOneMore(rows: map<Key, Row>, gone: set<Key>, k: Key)
    requires k in rows && k !in gone
    ensures k in ArchiveEach(rows, gone)
    ensures ArchiveEach(rows, gone + {k}) == ArchiveEach(rows, gone)[k := ArchiveEach(rows, gone)[k].(archived := true)]
  {
  }

  lemma SyncNone(st: State, byId: map<string, Found>)
    ensures SyncSome(st, byId, {}) == st
  {
  }

  lemma SyncAll(st: State, byId: map<string, Found>, stored: set<Key>)
    requires stored == set k | k in st.rows && IsStored(st, k)
    ensures SyncSome(st, byId, stored) == Sync(st, byId)
  {
    assert SyncRows(st, byId, stored) == SyncRows(st, byId, st.rows.Keys);
    assert SyncLogs(st, byId, stored) == SyncLogs(st, byId, st.rows.Keys);
  }

  class Service {
    var rows: map<Key, Row>
    var log: map<Key, seq<Transition>>

    function View(): State
      reads this
    {
      State(rows, log)
    }

    method MoveTo(k: Key, target: ContainerState)
      requires k in rows
      modifies this
      ensures View() == SetState(old(View()), k, target)
    {
      var previous := rows[k].state;
      if previous == target {
        return;
      }
      rows := rows[k := rows[k].(state := target)];
      log := log[k := LogOf(View(), k) + [Transition(previous, target, None)]];
    }

    method HandleHealthChange(k: Key, health: string)
      modifies this
      ensures View() == SetHealth(old(View()), k, health)
    {
      if k !in rows {
        return;
      }
      rows := rows[k := rows[k].(health := Some(health))];
      log := log[k := LogOf(View(), k) + [Transition(rows[k].state, rows[k].state, Some(health))]];
    }

    method InsertContainer(k: Key, row: Row)
      modifies this
      ensures View() == Insert(old(View()), k, row)
    {
      rows := rows[k := row];
      if row.state != Created {
        log := log[k := LogOf(View(), k) + [Transition(Created, row.state, None)]];
      }
    }

    method HandleDestroy(k: Key)
      modifies this
      ensures View() == Archive(old(View()), k)
    {
      if k in rows {
        rows := rows[k := rows[k].(archived := true)];
      }
    }

    // An unknown container that starts on the local runtime is discovered by reconciling.
    method HandleStateChange(k: Key, target: ContainerState, discovered: Option<seq<Found>>)
      modifies this
      ensures View() == StateChange(old(View()), k, target, discovered)
    {
      if k in rows {
        MoveTo(k, target);
      } else if target == Running && discovered.Some? && k.agent == LOCAL {
        ReconcileWith(discovered.value);
      }
    }

    method HandleEvent(e: Event, discovered: Option<seq<Found>>)
      modifies this
      ensures View() == ProcessEvent(old(View()), e, discovered)
    {
      match e.action {
        case Start => HandleStateChange(e.key, Running, discovered);
        case Stop =>
          if e.key in rows && rows[e.key].state == Completed {
            return;
          }
          HandleStateChange(e.key, Exited, discovered);
        case Die =>
          if e.exit.Some? && Graceful(e.exit.value) {
            HandleStateChange(e.key, Completed, discovered);
          } else {
            HandleStateChange(e.key, Exited, discovered);
          }
        case Kill => HandleStateChange(e.key, Exited, discovered);
        case Pause => HandleStateChange(e.key, Paused, discovered);
        case Unpause => HandleStateChange(e.key, Running, discovered);
        case Destroy => HandleDestroy(e.key);
        case HealthStatus => HandleHealthChange(e.key, e.health);
        case Unhandled =>
      }
    }

    method HandleAgentEvent(agent: string, r: Report)
      modifies this
      ensures View() == AgentEvent(old(View()), agent, r)
    {
      if r.ext == "" {
        return;
      }
      var k := Key(agent, r.ext);
      if r.destroyed {
        HandleDestroy(k);
        return;
      }
      if k !in rows {
        InsertContainer(k, NewRow(r));
        return;
      }
      RefreshRow(k, r);
      if r.health != "" && rows[k].health != Some(r.health) {
        HandleHealthChange(k, r.health);
      }
      HandleReportedState(k, r);
    }

    method RefreshRow(k: Key, r: Report)
      requires k in rows
      modifies this`rows
      ensures rows == old(rows)[k := Refresh(old(rows)[k], r)]
    {
      var c := rows[k];
      var dirty := false;
      if r.image != "" && r.image != c.image {
        c, dirty := c.(image := r.image), true;
      }
      if r.hasHealthCheck && !c.hasHealthCheck {
        c, dirty := c.(hasHealthCheck := true), true;
      }
      if c.archived {
        c, dirty := c.(archived := false), true;
      }
      if dirty {
        rows := rows[k := c];
      }
    }

    method HandleReportedState(k: Key, r: Report)
      requires k in rows
      modifies this
      ensures View() == ReportedChange(old(View()), k, r)
    {
      match r.state {
        case RRunning => MoveTo(k, Running);
        case RExited => MoveTo(k, Died(r.exit));
        case RDead => MoveTo(k, Died(r.exit));
        case RPaused => MoveTo(k, Paused);
        case _ =>
      }
    }

    /** The upserts, then the archiving of what the snapshot omits. */
    method HandleAgentInventory(agent: string, reports: seq<Report>, complete: bool)
      modifies this
      ensures View() == Inventory(old(View()), agent, reports, complete)
    {
      if |reports| == 0 && !complete {
        return;
      }
      var live: set<string> := {};
      for i := 0 to |reports|
        invariant live == LiveIds(reports[..i])
        invariant View() == AgentEvents(old(View()), agent, reports[..i])
      {
        assert reports[..i + 1] == reports[..i] + [reports[i]];
        assert reports[..i + 1][..i] == reports[..i];
        if reports[i].ext != "" {
          live := live + {reports[i].ext};
        }
        HandleAgentEvent(agent, reports[i]);
      }
      assert reports[..|reports|] == reports;
      ArchiveOmitted(agent, live);
    }

    method ArchiveOmitted(agent: string, live: set<string>)
      modifies this`rows
      ensures View() == ArchiveMissing(old(View()), agent, live)
    {
      var todo := set k | k in rows && k.agent == agent && !rows[k].archived;
      ghost var stored, gone := todo, {};
      ArchiveNone(rows);
      while todo != {}
        invariant todo <= stored && gone == set k | k in stored && k !in todo && k.ext !in live
        invariant rows == ArchiveEach(old(rows), gone)
        decreases |todo|
      {
        var k :| k in todo;
        todo := todo - {k};
        if k.ext !in live {
          ArchiveOneMore(old(rows), gone, k);
          rows := rows[k := rows[k].(archived := true)];
          gone := gone + {k};
        }
      }
      assert gone == set k | k in old(rows) && k.agent == agent && !old(rows)[k].archived && k.ext !in live;
    }

    /** Both loops of the offline reconciliation. */
    method ReconcileWith(found: seq<Found>)
      modifies this
      ensures View() == Reconcile(old(View()), found)
    {
      var byId: map<string, Found> := map[];
      for i := 0 to |found|
        invariant byId == ById(found[..i])
      {
        assert found[..i + 1][..i] == found[..i];
        byId := byId[found[i].ext := found[i]];
      }
      assert found[..|found|] == found;
      var stored := StoredIds(View());
      SyncStored(byId);
      for i := 0 to |found|
        invariant View() == InsertMissing(Sync(old(View()), byId), stored, found[..i])
      {
        assert found[..i + 1][..i] == found[..i];
        if found[i].ext !in stored {
          InsertContainer(Key(LOCAL, found[i].ext), FoundRow(found[i]));
        }
      }
    }

    method SyncStored(byId: map<string, Found>)
      modifies this
      ensures View() == Sync(old(View()), byId)
    {
      var todo := set k | k in rows && IsStored(View(), k);
      ghost var stored, st, done := todo, View(), {};
      SyncNone(st, byId);
      while todo != {}
        invariant todo <= stored && done == stored - todo
        invariant View() == SyncSome(st, byId, done)
        decreases |todo|
      {
        var k :| k in todo;
        SyncOneMore(st, byId, done, k);
        SyncStoredOne(k, byId);
        todo, done := todo - {k}, done + {k};
      }
      assert done == stored;
      SyncAll(st, byId, stored);
    }

    method SyncStoredOne(k: Key, byId: map<string, Found>)
      requires k in rows
      modifies this
      ensures View() == SyncOne(old(View()), k, byId)
    {
      if k.ext !in byId {
        rows := rows[k := rows[k].(archived := true)];
      } else {
        MoveTo(k, byId[k.ext].state);
      }
    }
  }
}
