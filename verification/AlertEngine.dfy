/**
 The alert engine: one tracked alert per dedup key, kept in memory and in the alert table.
 Every store write may fail; whether it does is a parameter. Events and entity removals are
 processed one at a time.
 */
module AlertEngine {
  import opened Options

  datatype Status = Active | Resolved | Silenced

  datatype Key = Key(source: string, alertType: string, entityType: string, entityId: string)

  // What one event says about its subject.
  datatype Body = Body(severity: string, message: string, entityName: string, details: string)

  datatype Event = Event(key: Key, body: Body, recover: bool)

  datatype Alert = Alert(id: nat, key: Key, body: Body, status: Status, resolvedBy: Option<nat>)

  datatype State = State(active: map<Key, Alert>, table: map<nat, Alert>, next: nat)

  // Which of the two writes of an operation succeed.
  datatype Writes = Writes(insert: bool, update: bool)

  const ALL_OK := Writes(true, true)

  function SeverityRank(severity: string): int {
    if severity == "info" then 0
    else if severity == "warning" then 1
    else if severity == "critical" then 2
    else -1
  }

  function OfEntity(k: Key, entityType: string, entityId: string): bool {
    k.entityType == entityType && k.entityId == entityId
  }

  // ------------------------------------------------------------------ operations

  // The record in memory is rewritten before the store is, and stays so if the write fails.
  function Escalate(st: State, e: Event, w: Writes): State
    requires e.key in st.active
  {
    var a := st.active[e.key];
    st.(active := st.active[e.key := a.(body := e.body)],
        table := if w.update && a.id in st.table then st.table[a.id := st.table[a.id].(body := e.body)] else st.table)
  }

  function Open(st: State, e: Event, silenced: bool): State {
    var a := Alert(st.next, e.key, e.body, if silenced then Silenced else Active, None);
    State(if silenced then st.active else st.active[e.key := a], st.table[st.next := a], st.next + 1)
  }

  function Fire(st: State, e: Event, silenced: bool, w: Writes): State {
    if e.key in st.active then
      if SeverityRank(e.body.severity) > SeverityRank(st.active[e.key].body.severity) then Escalate(st, e, w) else st
    else if w.insert then Open(st, e, silenced)
    else st
  }

  function Recover(st: State, e: Event, w: Writes): State {
    if e.key !in st.active then st
    else
      var a := st.active[e.key];
      var untracked := st.(active := st.active - {e.key});
      if !w.insert then untracked
      else
        var table := st.table[st.next := Alert(st.next, e.key, e.body, Resolved, None)];
        var table' :=
          if w.update && a.id in table then table[a.id := table[a.id].(status := Resolved, resolvedBy := Some(st.next))]
          else table;
        untracked.(table := table', next := st.next + 1)
  }

  function Process(st: State, e: Event, silenced: bool, w: Writes): State {
    if e.recover then Recover(st, e, w) else Fire(st, e, silenced, w)
  }

  function MarkResolved(table: map<nat, Alert>, ids: set<nat>): map<nat, Alert> {
    map i | i in table :: if i in ids then table[i].(status := Resolved, resolvedBy := None) else table[i]
  }

  function IdsOf(active: map<Key, Alert>, keys: set<Key>): set<nat> {
    set k | k in keys && k in active :: active[k].id
  }

  lemma IdsOfSame(a: map<Key, Alert>, b: map<Key, Alert>, keys: set<Key>)
    requires forall k :: k in keys ==> k in a && k in b && a[k] == b[k]
    ensures IdsOf(a, keys) == IdsOf(b, keys)
  {
    forall i | i in IdsOf(a, keys) ensures i in IdsOf(b, keys) {
      var k :| k in keys && k in a && a[k].id == i;
      assert b[k].id == i;
    }
    forall i | i in IdsOf(b, keys) ensures i in IdsOf(a, keys) {
      var k :| k in keys && k in b && b[k].id == i;
      assert a[k].id == i;
    }
  }

  lemma StillToResolve(keys: set<Key>, todo: set<Key>, failed: set<Key>, k: Key)
    requires todo <= keys && k in todo
    ensures keys - (todo - {k}) - failed == if k in failed then keys - todo - failed else keys - todo - failed + {k}
  {
  }

  lemma MarkOneMore(table: map<nat, Alert>, active: map<Key, Alert>, done: set<Key>, k: Key)
    requires k in active && active[k].id in table
    ensures var before := MarkResolved(table, IdsOf(active, done)); var id := active[k].id;
      MarkResolved(table, IdsOf(active, done + {k})) == before[id := before[id].(status := Resolved, resolvedBy := None)]
  {
    assert IdsOf(active, done + {k}) == IdsOf(active, done) + {active[k].id};
  }

  // `failed` holds the keys whose status update does not reach the store.
  function ResolveByEntity(st: State, entityType: string, entityId: string, failed: set<Key>): State {
    var gone := set k | k in st.active && OfEntity(k, entityType, entityId);
    st.(active := st.active - gone, table := MarkResolved(st.table, IdsOf(st.active, gone - failed)))
  }

  // ------------------------------------------------------------------ invariants

  ghost predicate RowsOk(st: State) {
    forall i :: i in st.table ==> st.table[i].id == i && i < st.next
  }

  // Every tracked alert is an active row of its key.
  ghost predicate Tracked(st: State) {
    && RowsOk(st)
    && forall k :: k in st.active ==>
         var a := st.active[k];
         a.key == k && a.status == Active && a.id in st.table && st.table[a.id].key == k && st.table[a.id].status == Active
  }

  // The tracked alerts are exactly the active rows, field by field, one per key.
  ghost predicate Agrees(st: State) {
    && Tracked(st)
    && (forall k :: k in st.active ==> st.table[st.active[k].id] == st.active[k])
    && (forall i :: i in st.table && st.table[i].status == Active ==>
          st.table[i].key in st.active && st.active[st.table[i].key].id == i)
  }

  ghost predicate OneActiveRowPerKey(table: map<nat, Alert>) {
    forall i, j :: i in table && j in table && table[i].status == table[j].status == Active && table[i].key == table[j].key ==>
      i == j
  }

  // The agreement, said without the in-memory map: it is the table read by key.
  lemma AgreesMeansEqual(st: State)
    requires Agrees(st)
    ensures OneActiveRowPerKey(st.table)
    ensures forall k :: k in st.active <==> exists i :: i in st.table && st.table[i].status == Active && st.table[i].key == k
    ensures forall a :: a in st.active.Values <==> exists i :: i in st.table && st.table[i].status == Active && st.table[i] == a
  {
    forall k | k in st.active ensures exists i :: i in st.table && st.table[i].status == Active && st.table[i].key == k {
      assert st.active[k].id in st.table;
    }
    forall a | a in st.active.Values ensures exists i :: i in st.table && st.table[i].status == Active && st.table[i] == a {
      var k :| k in st.active && st.active[k] == a;
      assert st.active[k].id in st.table;
    }
    forall i | i in st.table && st.table[i].status == Active ensures st.table[i] in st.active.Values {
      var k := st.table[i].key;
      assert k in st.active && st.active[k] == st.table[i];
    }
  }

  // ------------------------------------------------------------------------- runs

  datatype Op =
    | Deliver(event: Event, silenced: bool, writes: Writes)
    | RemoveEntity(entityType: string, entityId: string, failed: set<Key>)

  function Apply(st: State, op: Op): State {
    match op
    case Deliver(e, silenced, w) => Process(st, e, silenced, w)
    case RemoveEntity(t, id, failed) => ResolveByEntity(st, t, id, failed)
  }

  function Run(st: State, ops: seq<Op>): State {
    if ops == [] then st else Apply(Run(st, ops[..|ops| - 1]), ops[|ops| - 1])
  }

  predicate WritesSucceed(op: Op) {
    match op
    case Deliver(_, _, w) => w == ALL_OK
    case RemoveEntity(_, _, failed) => failed == {}
  }

  lemma EscalateKeeps(st: State, e: Event, w: Writes)
    requires Tracked(st) && e.key in st.active
    ensures Tracked(Escalate(st, e, w))
    ensures Agrees(st) && w == ALL_OK ==> Agrees(Escalate(st, e, w))
  {
  }

  lemma OpenKeeps(st: State, e: Event, silenced: bool)
    requires Tracked(st) && e.key !in st.active
    ensures Tracked(Open(st, e, silenced))
    ensures Agrees(st) ==> Agrees(Open(st, e, silenced))
  {
  }

  lemma FireKeeps(st: State, e: Event, silenced: bool, w: Writes)
    requires Tracked(st)
    ensures Tracked(Fire(st, e, silenced, w))
    ensures Agrees(st) && w == ALL_OK ==> Agrees(Fire(st, e, silenced, w))
  {
    if e.key in st.active { EscalateKeeps(st, e, w); } else { OpenKeeps(st, e, silenced); }
  }

  lemma RecoverKeeps(st: State, e: Event, w: Writes)
    requires Tracked(st)
    ensures Tracked(Recover(st, e, w))
    ensures Agrees(st) && w == ALL_OK ==> Agrees(Recover(st, e, w))
  {
  }

  lemma ResolveKeeps(st: State, entityType: string, entityId: string, failed: set<Key>)
    requires Tracked(st)
    ensures Tracked(ResolveByEntity(st, entityType, entityId, failed))
    ensures Agrees(st) && failed == {} ==> Agrees(ResolveByEntity(st, entityType, entityId, failed))
  {
    var gone := set k | k in st.active && OfEntity(k, entityType, entityId);
    forall k | k in st.active && k !in gone
      ensures forall g :: g in gone ==> st.active[g].id != st.active[k].id
    {
      assert st.table[st.active[k].id].key == k;
    }
    if Agrees(st) && failed == {} {
      forall i | i in st.table && st.table[i].status == Active && st.table[i].key in gone
        ensures exists g :: g in gone && st.active[g].id == i
      {
        assert st.active[st.table[i].key].id == i;
      }
    }
  }

  lemma ApplyKeeps(st: State, op: Op)
    requires Tracked(st)
    ensures Tracked(Apply(st, op))
    ensures Agrees(st) && WritesSucceed(op) ==> Agrees(Apply(st, op))
  {
    match op
    case Deliver(e, silenced, w) =>
      if e.recover { RecoverKeeps(st, e, w); } else { FireKeeps(st, e, silenced, w); }
    case RemoveEntity(t, id, failed) => ResolveKeeps(st, t, id, failed);
  }

  // A write the operation needed did not reach the store.
  predicate LosesWrite(st: State, op: Op) {
    match op
    case Deliver(e, _, w) =>
      e.key in st.active &&
      (if e.recover then !w.insert || !w.update
       else SeverityRank(e.body.severity) > SeverityRank(st.active[e.key].body.severity) && !w.update)
    case RemoveEntity(t, id, failed) => exists k :: k in st.active && OfEntity(k, t, id) && k in failed
  }

  /** From agreement, one operation leads to agreement exactly when no write it needed was
      lost; a failed insert of a new alert loses nothing. */
  lemma AgreementBrokenExactlyByLostWrite(st: State, op: Op)
    requires Agrees(st)
    ensures Agrees(Apply(st, op)) <==> !LosesWrite(st, op)
  {
    if LosesWrite(st, op) {
      LostWriteBreaks(st, op);
    } else {
      match op
      case Deliver(e, silenced, w) =>
        if e.recover { RecoverKeeps(st, e, ALL_OK); } else { FireKeeps(st, e, silenced, ALL_OK); }
      case RemoveEntity(t, id, failed) =>
        ResolveKeeps(st, t, id, {});
        var gone := set k | k in st.active && OfEntity(k, t, id);
        assert gone - failed == gone - {};
    }
  }

  lemma LostWriteBreaks(st: State, op: Op)
    requires Agrees(st) && LosesWrite(st, op)
    ensures !Agrees(Apply(st, op))
  {
    var st' := Apply(st, op);
    match op
    case Deliver(e, _, w) =>
      var a := st.active[e.key];
      if e.recover {
        assert st'.table[a.id].status == Active && e.key !in st'.active;
      } else {
        assert st'.table[a.id] != st'.active[e.key];
      }
    case RemoveEntity(t, id, failed) =>
      var k :| k in st.active && OfEntity(k, t, id) && k in failed;
      var gone := set k | k in st.active && OfEntity(k, t, id);
      assert st.active[k].id !in IdsOf(st.active, gone - failed);
      assert st'.table[st.active[k].id].status == Active && k !in st'.active;
  }

  /** Whatever writes fail, every tracked alert is still an active row of the table. */
  lemma {:induction false} TrackedAlertsAreActiveRows(st: State, ops: seq<Op>)
    requires Tracked(st)
    ensures Tracked(Run(st, ops))
  {
    if ops != [] {
      TrackedAlertsAreActiveRows(st, ops[..|ops| - 1]);
      ApplyKeeps(Run(st, ops[..|ops| - 1]), ops[|ops| - 1]);
    }
  }

  /** When every write succeeds, the tracked alerts stay equal to the active rows. */
  lemma {:induction false} ActiveMapEqualsTable(st: State, ops: seq<Op>)
    requires Agrees(st) && forall i :: 0 <= i < |ops| ==> WritesSucceed(ops[i])
    ensures Agrees(Run(st, ops))
  {
    if ops != [] {
      ActiveMapEqualsTable(st, ops[..|ops| - 1]);
      ApplyKeeps(Run(st, ops[..|ops| - 1]), ops[|ops| - 1]);
    }
  }

  // -------------------------------------------------------------- what the table tells

  // Only the row i differs between the tables.
  ghost predicate OnlyRow(before: map<nat, Alert>, after: map<nat, Alert>, i: nat) {
    forall j :: j != i ==> (j in before <==> j in after) && (j in before ==> after[j] == before[j])
  }

  /** What an event writes when the store takes it: an untracked key gets a new row, active and
      tracked, or silenced and untracked if a silence rule matches; a tracked one keeps its
      row, rewritten whole if the event is worse and untouched otherwise. */
  lemma FireWrites(st: State, e: Event, silenced: bool)
    requires Tracked(st) && !e.recover
    ensures var st' := Process(st, e, silenced, ALL_OK);
      if e.key !in st.active then
        && OnlyRow(st.table, st'.table, st.next)
        && st'.table[st.next] == Alert(st.next, e.key, e.body, if silenced then Silenced else Active, None)
        && (e.key in st'.active <==> !silenced)
      else
        var id := st.active[e.key].id;
        && e.key in st'.active && st'.active[e.key].id == id && OnlyRow(st.table, st'.table, id)
        && st'.table[id] == st.table[id].(body := st'.table[id].body)
        && (st'.table[id].body == e.body || st'.table[id].body == st.table[id].body)
  {
  }

  /** What a recovery writes when the store takes it: a row of its own, resolved, and the
      resolution of the tracked row, which names it; nothing for a key that is not tracked. */
  lemma RecoverWrites(st: State, e: Event, silenced: bool)
    requires Tracked(st) && e.recover
    ensures var st' := Process(st, e, silenced, ALL_OK);
      if e.key !in st.active then st' == st
      else
        var id := st.active[e.key].id;
        && e.key !in st'.active && st'.table[st.next] == Alert(st.next, e.key, e.body, Resolved, None)
        && st'.table[id] == st.table[id].(status := Resolved, resolvedBy := Some(st.next))
        && (forall j :: j in st.table && j != id ==> st'.table[j] == st.table[j])
        && st'.table.Keys == st.table.Keys + {st.next} && st'.next == st.next + 1
  {
  }

  /** Removing an entity resolves the rows of exactly its tracked alerts, naming no other row. */
  lemma RemoveWrites(st: State, entityType: string, entityId: string, i: nat)
    requires Agrees(st) && i in st.table
    ensures var st' := ResolveByEntity(st, entityType, entityId, {});
      var k := st.table[i].key;
      && st'.table.Keys == st.table.Keys
      && st'.table[i] ==
           if st.table[i].status == Active && k.entityType == entityType && k.entityId == entityId
           then st.table[i].(status := Resolved, resolvedBy := None) else st.table[i]
  {
    var gone := set k | k in st.active && OfEntity(k, entityType, entityId);
    var ids := IdsOf(st.active, gone - {});
    if i in ids {
      var k :| k in gone && k in st.active && st.active[k].id == i;
      assert st.table[i].key == k;
    }
    if st.table[i].status == Active && OfEntity(st.table[i].key, entityType, entityId) {
      assert st.table[i].key in gone && st.active[st.table[i].key].id == i;
    }
  }

  lemma StepLeavesClosed(st: State, op: Op, i: nat)
    requires Tracked(st) && i in st.table && st.table[i].status != Active
    ensures i in Apply(st, op).table && Apply(st, op).table[i] == st.table[i]
  {
    if op.RemoveEntity? {
      var gone := set k | k in st.active && OfEntity(k, op.entityType, op.entityId);
      assert i !in IdsOf(st.active, gone - op.failed);
    }
  }

  /** The past is never rewritten: whatever writes fail, a row that is resolved or silenced
      stays in the table as it is in every continuation. */
  lemma {:induction false} ClosedRowsStay(st: State, ops: seq<Op>, i: nat)
    requires Tracked(st) && i in st.table && st.table[i].status != Active
    ensures i in Run(st, ops).table && Run(st, ops).table[i] == st.table[i]
  {
    if ops != [] {
      var n := |ops| - 1;
      ClosedRowsStay(st, ops[..n], i);
      TrackedAlertsAreActiveRows(st, ops[..n]);
      StepLeavesClosed(Run(st, ops[..n]), ops[n], i);
    }
  }

  // --------------------------------------------------------- where a record comes from

  // An alert that is tracked at the start counts as one event, with the stored record.
  function Opening(st: State, k: Key): seq<Event> {
    if k in st.active then [Event(k, st.active[k].body, false)] else []
  }

  // The events a key has seen since its alert opened; empty while no alert is open.
  function SinceOpened(start: seq<Event>, ops: seq<Op>, k: Key): seq<Event> {
    if ops == [] then start
    else
      var before := SinceOpened(start, ops[..|ops| - 1], k);
      match ops[|ops| - 1]
      case Deliver(e, silenced, w) =>
        if e.key != k then before
        else if e.recover then []
        else if before != [] then before + [e]
        else if silenced || !w.insert then []
        else [e]
      case RemoveEntity(t, id, _) => if OfEntity(k, t, id) then [] else before
  }

  // Position i holds the first event of the highest rank.
  ghost predicate FirstOfMaxRank(events: seq<Event>, i: nat) {
    && i < |events|
    && (forall j :: 0 <= j < |events| ==> SeverityRank(events[j].body.severity) <= SeverityRank(events[i].body.severity))
    && (forall j :: 0 <= j < i ==> SeverityRank(events[j].body.severity) < SeverityRank(events[i].body.severity))
  }

  /** From any state, reloaded alerts included, and at every point of a run, failed writes
      included: a key is tracked exactly while it has events since its opening, and the
      tracked record is taken whole from one of them, the first to reach the highest rank. */
  lemma {:induction false} RecordIsFirstOfMaxRank(st0: State, ops: seq<Op>, k: Key) returns (i: nat)
    ensures var st, seen := Run(st0, ops), SinceOpened(Opening(st0, k), ops, k);
      && (k in st.active <==> seen != [])
      && (k in st.active ==> FirstOfMaxRank(seen, i) && st.active[k].body == seen[i].body)
  {
    i := 0;
    if ops != [] {
      var n := |ops| - 1;
      i := RecordIsFirstOfMaxRank(st0, ops[..n], k);
      var seen := SinceOpened(Opening(st0, k), ops[..n], k);
      if ops[n].Deliver? && ops[n].event.key == k && !ops[n].event.recover {
        if seen == [] {
          i := 0;
        } else if SeverityRank(ops[n].event.body.severity) > SeverityRank(seen[i].body.severity) {
          i := |seen|;
        }
      }
    }
  }

  /** The severities are ordered: anything unknown below "info" below "warning" below
      "critical". */
  lemma SeverityOrder(unknown: string)
    requires unknown != "info" && unknown != "warning" && unknown != "critical"
    ensures SeverityRank(unknown) < SeverityRank("info") < SeverityRank("warning") < SeverityRank("critical")
  {
    assert "info"[0] != "warning"[0] && "warning"[0] != "critical"[0] && "info"[0] != "critical"[0];
  }

  ghost predicate Has(events: seq<Event>, severity: string) {
    exists i :: 0 <= i < |events| && events[i].body.severity == severity
  }

  ghost predicate FirstOf(events: seq<Event>, i: nat, severity: string) {
    && i < |events| && events[i].body.severity == severity
    && forall j :: 0 <= j < i ==> events[j].body.severity != severity
  }

  // The first event of the highest rank, said in terms of the severities themselves.
  lemma MaxRankIsWorst(events: seq<Event>, i: nat)
    requires FirstOfMaxRank(events, i)
    ensures Has(events, "critical") ==> FirstOf(events, i, "critical")
    ensures !Has(events, "critical") && Has(events, "warning") ==> FirstOf(events, i, "warning")
    ensures !Has(events, "critical") && !Has(events, "warning") && Has(events, "info") ==> FirstOf(events, i, "info")
    ensures !Has(events, "critical") && !Has(events, "warning") && !Has(events, "info") ==> i == 0
  {
    SeverityOrder("");
    assert forall j :: 0 <= j < |events| ==>
      var s := events[j].body.severity;
      (s == "critical" || s == "warning" || s == "info" || SeverityRank(s) == SeverityRank(""));
    if !Has(events, "critical") && !Has(events, "warning") && !Has(events, "info") {
      assert SeverityRank(events[0].body.severity) == SeverityRank(events[i].body.severity);
    }
  }

  /** At every point of every run a tracked key holds the body of the first critical event
      since it opened; if there was none, of the first warning; failing that, of the first
      info; and of the event that opened it if all were of unknown severity. */
  lemma RecordIsFirstOfWorst(st0: State, ops: seq<Op>, k: Key) returns (i: nat)
    requires k in Run(st0, ops).active
    ensures var seen := SinceOpened(Opening(st0, k), ops, k);
      && i < |seen| && Run(st0, ops).active[k].body == seen[i].body
      && (Has(seen, "critical") ==> FirstOf(seen, i, "critical"))
      && (!Has(seen, "critical") && Has(seen, "warning") ==> FirstOf(seen, i, "warning"))
      && (!Has(seen, "critical") && !Has(seen, "warning") && Has(seen, "info") ==> FirstOf(seen, i, "info"))
      && (!Has(seen, "critical") && !Has(seen, "warning") && !Has(seen, "info") ==> i == 0)
  {
    i := RecordIsFirstOfMaxRank(st0, ops, k);
    MaxRankIsWorst(SinceOpened(Opening(st0, k), ops, k), i);
  }

  lemma StepRankNeverFalls(st: State, op: Op, k: Key)
    requires k in st.active && k in Apply(st, op).active
    ensures SeverityRank(st.active[k].body.severity) <= SeverityRank(Apply(st, op).active[k].body.severity)
    ensures Apply(st, op).active[k].id == st.active[k].id
  {
  }

  /** Between any two points of a run through which an alert stays tracked, its rank does not
      fall and its row stays the same row. */
  lemma {:induction false} RankNeverFalls(st0: State, ops: seq<Op>, k: Key, i: nat, j: nat)
    requires i <= j <= |ops|
    requires forall m {:trigger ops[..m]} :: i <= m <= j ==> k in Run(st0, ops[..m]).active
    ensures var a, b := Run(st0, ops[..i]).active[k], Run(st0, ops[..j]).active[k];
      SeverityRank(a.body.severity) <= SeverityRank(b.body.severity) && a.id == b.id
    decreases j
  {
    if i < j {
      RankNeverFalls(st0, ops, k, i, j - 1);
      assert ops[..j][..j - 1] == ops[..j - 1];
      StepRankNeverFalls(Run(st0, ops[..j - 1]), ops[j - 1], k);
    }
  }

  // ------------------------------------------------------------- the engine itself

  class Engine {
    var active: map<Key, Alert>
    var table: map<nat, Alert>
    var next: nat

    function View(): State
      reads this
    {
      State(active, table, next)
    }

    constructor (table: map<nat, Alert>, next: nat)
      ensures active == map[] && this.table == table && this.next == next
    {
      this.active, this.table, this.next := map[], table, next;
    }

    /** Rebuilds the map from the listed active rows. A table with one active row per key
        comes back exactly; with more, each key still tracks an active row. */
    method Reload(list: seq<Alert>)
      requires RowsOk(View()) && active == map[]
      requires forall i :: 0 <= i < |list| ==> list[i].id in table && table[list[i].id] == list[i] && list[i].status == Active
      requires forall i :: i in table && table[i].status == Active ==> table[i] in list
      modifies this`active
      ensures Tracked(View())
      ensures OneActiveRowPerKey(table) ==> Agrees(View())
    {
      for n := 0 to |list|
        invariant Tracked(View())
        invariant forall k :: k in active ==> table[active[k].id] == active[k]
        invariant forall m :: 0 <= m < n ==> list[m].key in active
      {
        active := active[list[n].key := list[n]];
      }
      if OneActiveRowPerKey(table) {
        forall i | i in table && table[i].status == Active
          ensures table[i].key in active && active[table[i].key].id == i
        {
          var m :| 0 <= m < |list| && list[m] == table[i];
          assert list[m].key in active;
        }
      }
    }

    method ProcessEvent(e: Event, silenced: bool, w: Writes)
      requires Tracked(View())
      modifies this
      ensures View() == Process(old(View()), e, silenced, w) && Tracked(View())
      ensures old(Agrees(View())) && w == ALL_OK ==> Agrees(View())
    {
      ghost var st := View();
      if e.recover {
        ProcessRecovery(e, w);
        return;
      }
      FireKeeps(st, e, silenced, w);
      if e.key in active {
        var existing := active[e.key];
        if SeverityRank(e.body.severity) > SeverityRank(existing.body.severity) {
          EscalateAlert(existing, e, w);
        }
        return;
      }
      var a := Alert(next, e.key, e.body, Active, None);
      if silenced {
        a := a.(status := Silenced);
      }
      if !w.insert {
        return;
      }
      table, next := table[next := a], next + 1;
      if !silenced {
        active := active[e.key := a];
      }
    }

    method EscalateAlert(existing: Alert, e: Event, w: Writes)
      requires Tracked(View()) && e.key in active && active[e.key] == existing
      modifies this`active, this`table
      ensures View() == Escalate(old(View()), e, w)
    {
      active := active[e.key := existing.(body := e.body)];
      if w.update {
        table := table[existing.id := table[existing.id].(body := e.body)];
      }
    }

    method ProcessRecovery(e: Event, w: Writes)
      requires Tracked(View())
      modifies this
      ensures View() == Recover(old(View()), e, w) && Tracked(View())
      ensures old(Agrees(View())) && w == ALL_OK ==> Agrees(View())
    {
      RecoverKeeps(View(), e, w);
      if e.key !in active {
        return;
      }
      var a := active[e.key];
      active := active - {e.key};
      if !w.insert {
        return;
      }
      var id := next;
      table, next := table[id := Alert(id, e.key, e.body, Resolved, None)], next + 1;
      if w.update {
        table := table[a.id := table[a.id].(status := Resolved, resolvedBy := Some(id))];
      }
    }

    // One status update per collected alert, in any order.
    method ResolveRows(alerts: map<Key, Alert>, failed: set<Key>)
      requires forall k :: k in alerts ==> alerts[k].id in table
      modifies this`table
      ensures table == MarkResolved(old(table), IdsOf(alerts, alerts.Keys - failed))
    {
      var todo := alerts.Keys;
      ghost var done: set<Key> := {};
      while todo != {}
        invariant todo <= alerts.Keys && done == alerts.Keys - todo - failed
        invariant table == MarkResolved(old(table), IdsOf(alerts, done))
        decreases |todo|
      {
        var k :| k in todo;
        StillToResolve(alerts.Keys, todo, failed, k);
        if k !in failed {
          MarkOneMore(old(table), alerts, done, k);
          ResolveRow(alerts[k].id);
          done := done + {k};
        }
        todo := todo - {k};
      }
      assert done == alerts.Keys - failed;
    }

    method ResolveRow(id: nat)
      requires id in table
      modifies this`table
      ensures table == old(table)[id := old(table)[id].(status := Resolved, resolvedBy := None)]
    {
      table := table[id := table[id].(status := Resolved, resolvedBy := None)];
    }

    /** Collects and untracks the entity's alerts, then resolves their rows one by one. */
    method ResolveEntity(entityType: string, entityId: string, failed: set<Key>)
      requires Tracked(View())
      modifies this`active, this`table
      ensures View() == ResolveByEntity(old(View()), entityType, entityId, failed) && Tracked(View())
      ensures old(Agrees(View())) && failed == {} ==> Agrees(View())
    {
      ghost var st := View();
      ResolveKeeps(st, entityType, entityId, failed);
      var gone := set k | k in active && OfEntity(k, entityType, entityId);
      var toResolve := map k | k in gone :: active[k];
      active := active - gone;
      assert toResolve.Keys == gone;
      IdsOfSame(toResolve, st.active, gone - failed);
      ResolveRows(toResolve, failed);
    }
  }
}
