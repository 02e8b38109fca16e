/**
 The container down detector: one pass compares the listed containers with the alerts that
 are firing and emits what is missing. Map iteration order is left open.
 */
module DownDetector {
  import opened ContainerStates
  import opened Options
  import opened AlertEngine

  datatype Container = Container(id: string, name: string, state: ContainerState, lastChange: int, severity: string)

  predicate IsDown(s: ContainerState) {
    s == Exited || s == Dead
  }

  predicate PastThreshold(c: Container, now: int, after: int) {
    IsDown(c.state) && now - c.lastChange >= after
  }

  const CONTAINER: string := "container"
  const CONTAINER_DOWN: string := "container_down"

  function DownKey(id: string): Key {
    Key(CONTAINER, CONTAINER_DOWN, CONTAINER, id)
  }

  predicate IsDownAlert(k: Key) {
    k.alertType == CONTAINER_DOWN && k.entityType == CONTAINER
  }

  function DownSeverity(c: Container): string {
    if c.severity == "info" || c.severity == "warning" then c.severity else "critical"
  }

  function FireEvent(c: Container): Event {
    Event(DownKey(c.id), Body(DownSeverity(c), "Container " + c.name + " is down", c.name, "{}"), false)
  }

  function RecoverEvent(id: string, name: string): Event {
    Event(DownKey(id), Body("info", "Container " + name + " is running again", name, "{}"), true)
  }

  function DownIds(containers: seq<Container>, now: int, after: int): set<string> {
    set c | c in containers && PastThreshold(c, now, after) :: c.id
  }

  function FiringIds(active: seq<Alert>): set<string> {
    set a | a in active && IsDownAlert(a.key) :: a.key.entityId
  }

  // One fire event per id of `fire`, one recovery per id of `recover`, and nothing else.
  ghost predicate Emits(events: seq<Event>, fire: set<string>, recover: set<string>) {
    && (forall e :: e in events ==> e.key == DownKey(e.key.entityId))
    && (forall e :: e in events ==> e.key.entityId in (if e.recover then recover else fire))
    && (forall id :: id in fire ==> exists e :: e in events && !e.recover && e.key == DownKey(id))
    && (forall id :: id in recover ==> exists e :: e in events && e.recover && e.key == DownKey(id))
    && (forall i, j :: 0 <= i < j < |events| ==> events[i].key != events[j].key)
  }

  // Every pending event once, in some order.
  ghost predicate Lists(events: seq<Event>, pending: map<string, Event>) {
    && (forall e :: e in events ==> e.key.entityId in pending && pending[e.key.entityId] == e)
    && (forall id :: id in pending ==> pending[id] in events)
    && (forall i, j :: 0 <= i < j < |events| ==> events[i].key != events[j].key)
  }

  ghost predicate Keyed(pending: map<string, Event>, recover: bool) {
    forall id :: id in pending ==> pending[id].key == DownKey(id) && pending[id].recover == recover
  }

  lemma ListsEmit(a: seq<Event>, fires: map<string, Event>, b: seq<Event>, recoveries: map<string, Event>)
    requires Lists(a, fires) && Lists(b, recoveries) && Keyed(fires, false) && Keyed(recoveries, true)
    requires fires.Keys !! recoveries.Keys
    ensures Emits(a + b, fires.Keys, recoveries.Keys)
  {
    var events := a + b;
    assert forall e :: e in events <==> e in a || e in b;
    forall i, j | 0 <= i < j < |events| ensures events[i].key != events[j].key {
      if i < |a| <= j { assert events[i] in a && events[j] in b; }
    }
  }

  /** Which containers count: those listed as exited or dead for at least the threshold;
      running, completed, restarting, paused and created ones never do. */
  lemma DownMeans(containers: seq<Container>, now: int, after: int, id: string)
    ensures id in DownIds(containers, now, after) <==>
      exists c :: c in containers && c.id == id && c.state in {Exited, Dead} && c.lastChange + after <= now
  {
    if id in DownIds(containers, now, after) {
      var c :| c in containers && PastThreshold(c, now, after) && c.id == id;
      assert c.state in {Exited, Dead};
    }
    if c :| c in containers && c.id == id && c.state in {Exited, Dead} && c.lastChange + after <= now {
      assert PastThreshold(c, now, after);
    }
  }

  // Which alerts count as firing.
  lemma FiringMeans(active: seq<Alert>, id: string)
    ensures id in FiringIds(active) <==>
      exists a :: a in active && a.key.alertType == "container_down" && a.key.entityType == "container" && a.key.entityId == id
  {
    if id in FiringIds(active) {
      var a :| a in active && IsDownAlert(a.key) && a.key.entityId == id;
      assert a.key.alertType == "container_down" && a.key.entityType == "container";
    }
    if a :| a in active && a.key.alertType == "container_down" && a.key.entityType == "container" && a.key.entityId == id {
      assert IsDownAlert(a.key);
    }
  }

  // What the two kinds of event say; a container without a severity of its own is critical.
  lemma EventsSay(c: Container, id: string, name: string)
    ensures var e := FireEvent(c);
      && e.key == Key("container", "container_down", "container", c.id) && !e.recover && e.body.entityName == c.name
      && (c.severity == "info" ==> e.body.severity == "info") && (c.severity == "warning" ==> e.body.severity == "warning")
      && (c.severity !in {"info", "warning"} ==> e.body.severity == "critical")
    ensures var e := RecoverEvent(id, name);
      e.key == Key("container", "container_down", "container", id) && e.recover && e.body.severity == "info" && e.body.entityName == name
  {
  }

  method CollectDown(containers: seq<Container>, now: int, after: int)
    returns (down: map<string, Container>, known: map<string, Container>)
    ensures down.Keys == DownIds(containers, now, after)
    ensures forall id :: id in down ==> down[id] in containers && down[id].id == id && PastThreshold(down[id], now, after)
    ensures forall id :: id in known <==> exists c :: c in containers && c.id == id
    ensures forall id :: id in known ==> known[id] in containers && known[id].id == id
  {
    down, known := map[], map[];
    for i := 0 to |containers|
      invariant down.Keys == DownIds(containers[..i], now, after)
      invariant forall id :: id in down ==> down[id] in containers && down[id].id == id && PastThreshold(down[id], now, after)
      invariant forall id :: id in known <==> exists c :: c in containers[..i] && c.id == id
      invariant forall id :: id in known ==> known[id] in containers && known[id].id == id
    {
      var c := containers[i];
      assert containers[..i + 1] == containers[..i] + [c];
      known := known[c.id := c];
      if PastThreshold(c, now, after) {
        down := down[c.id := c];
      }
    }
    assert containers[..|containers|] == containers;
  }

  method CollectFiring(active: seq<Alert>) returns (firing: map<string, Alert>)
    ensures firing.Keys == FiringIds(active)
    ensures forall id :: id in firing ==> firing[id] in active && IsDownAlert(firing[id].key) && firing[id].key.entityId == id
  {
    firing := map[];
    for i := 0 to |active|
      invariant firing.Keys == FiringIds(active[..i])
      invariant forall id :: id in firing ==> firing[id] in active && IsDownAlert(firing[id].key) && firing[id].key.entityId == id
    {
      assert active[..i + 1] == active[..i] + [active[i]];
      if IsDownAlert(active[i].key) {
        firing := firing[active[i].key.entityId := active[i]];
      }
    }
    assert active[..|active|] == active;
  }

  // Sends what is pending, in any order.
  method SendAll(pending: map<string, Event>) returns (events: seq<Event>)
    requires forall id :: id in pending ==> pending[id].key == DownKey(id)
    ensures Lists(events, pending)
  {
    events := [];
    var todo := pending.Keys;
    while todo != {}
      invariant todo <= pending.Keys
      invariant forall e :: e in events ==> e.key.entityId in pending && e.key.entityId !in todo && pending[e.key.entityId] == e
      invariant forall id :: id in pending && id !in todo ==> pending[id] in events
      invariant forall i, j :: 0 <= i < j < |events| ==> events[i].key != events[j].key
      decreases |todo|
    {
      var id :| id in todo;
      forall i | 0 <= i < |events| ensures events[i].key != pending[id].key { assert events[i] in events; }
      events := events + [pending[id]];
      todo := todo - {id};
    }
  }

  // The event says what the listing says of a container past the threshold.
  ghost predicate FireIsTrue(e: Event, containers: seq<Container>, now: int, after: int) {
    exists c :: c in containers && PastThreshold(c, now, after) && e == FireEvent(c)
  }

  // The event names the container as the listing does or, if it is not listed, as its alert.
  ghost predicate RecoverIsTrue(e: Event, containers: seq<Container>, active: seq<Alert>) {
    || (exists c :: c in containers && e == RecoverEvent(c.id, c.name))
    || ((forall c :: c in containers ==> c.id != e.key.entityId)
        && exists a :: a in active && IsDownAlert(a.key) && e == RecoverEvent(a.key.entityId, a.body.entityName))
  }

  /** One pass over a listing and the list of active alerts: which events it sends, and that
      each carries the severity and name the listing, or failing that the alert, has. */
  method Check(containers: seq<Container>, active: seq<Alert>, now: int, after: int) returns (events: seq<Event>)
    ensures var down, firing := DownIds(containers, now, after), FiringIds(active);
      Emits(events, down - firing, firing - down)
    ensures forall e :: e in events ==>
      if e.recover then RecoverIsTrue(e, containers, active) else FireIsTrue(e, containers, now, after)
  {
    var fires, recoveries := Compare(containers, active, now, after);
    var a := SendAll(fires);
    var b := SendAll(recoveries);
    ListsEmit(a, fires, b, recoveries);
    events := a + b;
    assert forall e :: e in events <==> e in a || e in b;
  }

  // What is missing between the listing and the firing alerts.
  method Compare(containers: seq<Container>, active: seq<Alert>, now: int, after: int)
    returns (fires: map<string, Event>, recoveries: map<string, Event>)
    ensures Keyed(fires, false) && Keyed(recoveries, true)
    ensures fires.Keys == DownIds(containers, now, after) - FiringIds(active)
    ensures recoveries.Keys == FiringIds(active) - DownIds(containers, now, after)
    ensures forall id :: id in fires ==> FireIsTrue(fires[id], containers, now, after)
    ensures forall id :: id in recoveries ==> RecoverIsTrue(recoveries[id], containers, active)
  {
    var down, known := CollectDown(containers, now, after);
    var firing := CollectFiring(active);
    fires := map id | id in down.Keys - firing.Keys :: FireEvent(down[id]);
    recoveries := map id | id in firing.Keys - down.Keys ::
      RecoverEvent(id, if id in known then known[id].name else firing[id].body.entityName);
    RecoveriesAreTrue(containers, active, known, firing, recoveries);
  }

  lemma RecoveriesAreTrue(containers: seq<Container>, active: seq<Alert>, known: map<string, Container>,
                          firing: map<string, Alert>, recoveries: map<string, Event>)
    requires forall id :: id in known <==> exists c :: c in containers && c.id == id
    requires forall id :: id in known ==> known[id] in containers && known[id].id == id
    requires forall id :: id in firing ==> firing[id] in active && IsDownAlert(firing[id].key) && firing[id].key.entityId == id
    requires forall id :: id in recoveries ==>
      id in firing && recoveries[id] == RecoverEvent(id, if id in known then known[id].name else firing[id].body.entityName)
    ensures forall id :: id in recoveries ==> RecoverIsTrue(recoveries[id], containers, active)
  {
    forall id | id in recoveries ensures RecoverIsTrue(recoveries[id], containers, active) {
      assert id in known || firing[id] in active;
    }
  }

  // ----------------------------------------------------------- delivery to the engine

  function DeliverAll(st: State, events: seq<Event>): State {
    if events == [] then st
    else Process(DeliverAll(st, events[..|events| - 1]), events[|events| - 1], false, ALL_OK)
  }

  // With distinct keys, each event settles its own key and no other.
  lemma {:induction false} DeliverAllSettles(st: State, events: seq<Event>, k: Key)
    requires forall i, j :: 0 <= i < j < |events| ==> events[i].key != events[j].key
    ensures (exists e :: e in events && e.key == k && !e.recover) ==> k in DeliverAll(st, events).active
    ensures (exists e :: e in events && e.key == k && e.recover) ==> k !in DeliverAll(st, events).active
    ensures (forall e :: e in events ==> e.key != k) ==> (k in DeliverAll(st, events).active <==> k in st.active)
  {
    if events != [] {
      var n := |events| - 1;
      var prefix, last := events[..n], events[n];
      DeliverAllSettles(st, prefix, k);
      DeliverOneSettles(DeliverAll(st, prefix), last, k);
      assert events == prefix + [last];
      if last.key == k { LastKeyIsNew(events); }
    }
  }

  lemma DeliverOneSettles(st: State, e: Event, k: Key)
    ensures k in Process(st, e, false, ALL_OK).active <==> if e.key == k then !e.recover else k in st.active
  {
  }

  lemma LastKeyIsNew(events: seq<Event>)
    requires events != [] && forall i, j :: 0 <= i < j < |events| ==> events[i].key != events[j].key
    ensures forall e :: e in events[..|events| - 1] ==> e.key != events[|events| - 1].key
  {
    var n := |events| - 1;
    forall e | e in events[..n] ensures e.key != events[n].key {
      var i :| 0 <= i < n && events[i] == e;
    }
  }

  lemma {:induction false} DeliverAllKeepsAgreement(st: State, events: seq<Event>)
    requires Agrees(st)
    ensures Agrees(DeliverAll(st, events))
  {
    if events != [] {
      var n := |events| - 1;
      DeliverAllKeepsAgreement(st, events[..n]);
      ApplyKeeps(DeliverAll(st, events[..n]), Deliver(events[n], false, ALL_OK));
    }
  }

  // What ListActiveAlerts returns for a state.
  ghost predicate ListsActive(active: seq<Alert>, table: map<nat, Alert>) {
    forall a :: a in active <==> exists i :: i in table && table[i].status == Active && table[i] == a
  }

  function ActiveDownIds(st: State): set<string> {
    set k | k in st.active && IsDownAlert(k) :: k.entityId
  }

  lemma FiringMatchesActive(st: State, active: seq<Alert>)
    requires Agrees(st) && ListsActive(active, st.table)
    ensures FiringIds(active) == ActiveDownIds(st)
  {
    AgreesMeansEqual(st);
    forall id | id in FiringIds(active) ensures id in ActiveDownIds(st) {
      var a :| a in active && IsDownAlert(a.key) && a.key.entityId == id;
      assert a.key in st.active;
    }
    forall id | id in ActiveDownIds(st) ensures id in FiringIds(active) {
      var k :| k in st.active && IsDownAlert(k) && k.entityId == id;
      assert st.active[k] in st.active.Values;
      assert st.active[k] in active;
    }
  }

  // Containers with a down alert that some other source raised.
  function ForeignIds(st: State): set<string> {
    set k | k in st.active && IsDownAlert(k) && k != DownKey(k.entityId) :: k.entityId
  }

  lemma ActiveIsOwnOrForeign(st: State, id: string)
    ensures id in ActiveDownIds(st) <==> DownKey(id) in st.active || id in ForeignIds(st)
  {
    if id in ActiveDownIds(st) {
      var k :| k in st.active && IsDownAlert(k) && k.entityId == id;
      assert k == DownKey(id) || id in ForeignIds(st);
    }
  }

  // After the pass the detector's own key is active exactly for the containers past the
  // threshold, but for those another source had alerted about already.
  lemma KeyAfterPass(st: State, events: seq<Event>, down: set<string>, id: string)
    requires Emits(events, down - ActiveDownIds(st), ActiveDownIds(st) - down)
    ensures DownKey(id) in DeliverAll(st, events).active <==>
      id in down && (id in ActiveDownIds(st) ==> DownKey(id) in st.active)
  {
    DeliverAllSettles(st, events, DownKey(id));
    ActiveIsOwnOrForeign(st, id);
    if e :| e in events && e.key == DownKey(id) {
      assert e.key.entityId == id;
    }
  }

  lemma OthersAfterPass(st: State, events: seq<Event>, fire: set<string>, recover: set<string>, k: Key)
    requires Emits(events, fire, recover) && k != DownKey(k.entityId)
    ensures k in DeliverAll(st, events).active <==> k in st.active
  {
    DeliverAllSettles(st, events, k);
  }

  /** Delivered to an unsilenced engine that agrees with its table, a pass leaves down alerts
      active exactly for the containers past the threshold and those that another source
      raised, touches no other key, and keeps the agreement. */
  lemma PassSettles(st: State, active: seq<Alert>, events: seq<Event>, down: set<string>)
    requires Agrees(st) && ListsActive(active, st.table)
    requires Emits(events, down - FiringIds(active), FiringIds(active) - down)
    ensures var st' := DeliverAll(st, events);
      && Agrees(st')
      && ActiveDownIds(st') == down + ForeignIds(st) && ForeignIds(st') == ForeignIds(st)
      && (forall k: Key :: k != DownKey(k.entityId) ==> (k in st'.active <==> k in st.active))
  {
    var st' := DeliverAll(st, events);
    DeliverAllKeepsAgreement(st, events);
    FiringMatchesActive(st, active);
    forall k: Key | k != DownKey(k.entityId) ensures k in st'.active <==> k in st.active {
      OthersAfterPass(st, events, down - FiringIds(active), FiringIds(active) - down, k);
    }
    SameForeign(st, st');
    forall id ensures id in ActiveDownIds(st') <==> id in down + ForeignIds(st) {
      KeyAfterPass(st, events, down, id);
      ActiveIsOwnOrForeign(st, id);
      ActiveIsOwnOrForeign(st', id);
    }
  }

  lemma SameForeign(st: State, st': State)
    requires forall k: Key :: k != DownKey(k.entityId) ==> (k in st'.active <==> k in st.active)
    ensures ForeignIds(st') == ForeignIds(st)
  {
  }

  /** Hence the active down alerts are exactly the containers past the threshold if and only
      if every down alert of another source is about one of them. */
  lemma PassMakesAlertsExactIff(st: State, active: seq<Alert>, events: seq<Event>, down: set<string>)
    requires Agrees(st) && ListsActive(active, st.table)
    requires Emits(events, down - FiringIds(active), FiringIds(active) - down)
    ensures ActiveDownIds(DeliverAll(st, events)) == down <==> ForeignIds(st) <= down
  {
    PassSettles(st, active, events, down);
  }

  // Down events carry the detector's own key, as they do wherever they are sent.
  predicate OwnOnly(op: Op) {
    op.Deliver? && IsDownAlert(op.event.key) ==> op.event.key == DownKey(op.event.key.entityId)
  }

  lemma StepRaisesNothingForeign(st: State, op: Op)
    requires ForeignIds(st) == {} && OwnOnly(op)
    ensures ForeignIds(Apply(st, op)) == {}
  {
    forall k | k in Apply(st, op).active && IsDownAlert(k) ensures k == DownKey(k.entityId) {
      assert k in st.active ==> k == DownKey(k.entityId) || k.entityId in ForeignIds(st);
    }
  }

  // Nothing else in the system raises down alerts, so no run has one of another source.
  lemma {:induction false} NothingForeign(st: State, ops: seq<Op>)
    requires ForeignIds(st) == {} && forall i :: 0 <= i < |ops| ==> OwnOnly(ops[i])
    ensures ForeignIds(Run(st, ops)) == {}
  {
    if ops != [] {
      var n := |ops| - 1;
      NothingForeign(st, ops[..n]);
      StepRaisesNothingForeign(Run(st, ops[..n]), ops[n]);
    }
  }

  // What a pass sends is of that kind.
  lemma PassIsOwn(events: seq<Event>, fire: set<string>, recover: set<string>, e: Event, silenced: bool, w: Writes)
    requires Emits(events, fire, recover) && e in events
    ensures OwnOnly(Deliver(e, silenced, w))
  {
  }

  /** After any run of the engine with successful writes, over all its sources, a delivered
      pass leaves down alerts active exactly for the containers past the threshold, and a
      second pass on the same listing and clock emits nothing. */
  lemma PassIsExact(st: State, ops: seq<Op>, active: seq<Alert>, events: seq<Event>, active2: seq<Alert>, events2: seq<Event>, down: set<string>)
    requires Agrees(st) && ForeignIds(st) == {}
    requires forall i :: 0 <= i < |ops| ==> OwnOnly(ops[i]) && WritesSucceed(ops[i])
    requires ListsActive(active, Run(st, ops).table)
    requires Emits(events, down - FiringIds(active), FiringIds(active) - down)
    requires ListsActive(active2, DeliverAll(Run(st, ops), events).table)
    requires Emits(events2, down - FiringIds(active2), FiringIds(active2) - down)
    ensures ActiveDownIds(DeliverAll(Run(st, ops), events)) == down
    ensures events2 == []
  {
    ActiveMapEqualsTable(st, ops);
    NothingForeign(st, ops);
    PassMakesAlertsExactIff(Run(st, ops), active, events, down);
    SecondPassIsSilentIff(Run(st, ops), active, active2, events, events2, down);
  }

  /** Why that hypothesis is needed: an alert of another source about a container that is not
      down would stay. */
  lemma ForeignAlertStays()
    ensures var k := Key("other", CONTAINER_DOWN, CONTAINER, "c");
      var a := Alert(0, k, Body("warning", "m", "c", "{}"), Active, None);
      var st := State(map[k := a], map[0 := a], 1);
      var events := [RecoverEvent("c", "c")];
      && Agrees(st) && ListsActive([a], st.table) && Emits(events, {} - FiringIds([a]), FiringIds([a]) - {})
      && ActiveDownIds(DeliverAll(st, events)) == {"c"}
  {
    var k := Key("other", CONTAINER_DOWN, CONTAINER, "c");
    var a := Alert(0, k, Body("warning", "m", "c", "{}"), Active, None);
    var st := State(map[k := a], map[0 := a], 1);
    var events := [RecoverEvent("c", "c")];
    assert FiringIds([a]) == {"c"} by { assert a in [a]; }
    assert ForeignIds(st) == {"c"};
    assert events[0] in events;
    assert ListsActive([a], st.table) by {
      assert 0 in st.table && st.table[0] == a;
    }
    PassSettles(st, [a], events, {});
  }

  /** A second pass on the same listing and clock emits nothing under the same condition;
      otherwise it recovers, again and again, what it never raised. */
  lemma SecondPassIsSilentIff(st: State, active: seq<Alert>, active2: seq<Alert>, events: seq<Event>, events2: seq<Event>, down: set<string>)
    requires Agrees(st) && ListsActive(active, st.table)
    requires Emits(events, down - FiringIds(active), FiringIds(active) - down)
    requires ListsActive(active2, DeliverAll(st, events).table)
    requires Emits(events2, down - FiringIds(active2), FiringIds(active2) - down)
    ensures events2 == [] <==> ForeignIds(st) <= down
  {
    PassSettles(st, active, events, down);
    FiringMatchesActive(DeliverAll(st, events), active2);
    if ForeignIds(st) <= down {
      assert forall e :: e !in events2;
      assert forall e :: e in multiset(events2) <==> e in events2;
      assert multiset(events2) == multiset{};
      assert |events2| == |multiset(events2)|;
    } else {
      var id :| id in ForeignIds(st) && id !in down;
      assert id in FiringIds(active2) - down;
    }
  }
}
