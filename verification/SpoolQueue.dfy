/**
 Accounting of the spool under interleaving. Each operation below is one critical
 section or one database statement of the source, so flushes, drops, purges and counter
 updates of different goroutines may overlap freely.
 */
module SpoolQueue {
  import opened SpoolTable

  datatype Queue = Queue(
    hasStore: bool,
    buf: seq<Event>,
    bufBytes: int,
    flights: seq<seq<Event>>,       // batches taken from the buffer, not yet written
    rows: seq<Row>,
    last: nat,
    memDropped: nat,                // counter kept in memory
    persisted: nat,                 // counter kept in the database
    uncounting: seq<nat>,           // drops deleted from the table, not yet counted
    // where every accepted event went
    accepted: multiset<Event>,
    acked: multiset<Event>,
    expired: multiset<Event>,
    overBudget: multiset<Event>,
    discarded: multiset<Event>,
    crashed: multiset<Event>,
    // where every budget drop was counted
    cleared: nat,
    miscounted: nat)

  function Empty(hasStore: bool): Queue {
    Queue(hasStore, [], 0, [], [], 0, 0, 0, [], multiset{}, multiset{}, multiset{}, multiset{}, multiset{}, multiset{}, 0, 0)
  }

  function InFlight(flights: seq<seq<Event>>): multiset<Event> {
    if flights == [] then multiset{} else multiset(flights[0]) + InFlight(flights[1..])
  }

  function Sum(ns: seq<nat>): nat {
    if ns == [] then 0 else ns[0] + Sum(ns[1..])
  }

  function Without<T>(s: seq<T>, i: nat): seq<T>
    requires i < |s|
  {
    s[..i] + s[i + 1..]
  }

  // What the drop counter reports.
  function Dropped(q: Queue): nat {
    q.memDropped + (if q.hasStore then q.persisted else 0)
  }

  // ------------------------------------------------------------------- operations

  function Send(q: Queue, e: Event): Queue {
    q.(buf := q.buf + [e], bufBytes := q.bufBytes + e.size, accepted := q.accepted + multiset{e})
  }

  function TakeBatch(q: Queue): Queue
    requires q.hasStore && q.buf != []
  {
    q.(buf := [], bufBytes := 0, flights := q.flights + [q.buf])
  }

  // A batch that was still in flight when the spool was discarded goes with the database.
  function CommitBatch(q: Queue, i: nat): Queue
    requires i < |q.flights|
  {
    var rest := q.(flights := Without(q.flights, i));
    if q.hasStore then rest.(rows := q.rows + Numbered(q.flights[i], q.last), last := q.last + |q.flights[i]|)
    else rest.(discarded := q.discarded + multiset(q.flights[i]))
  }

  function PutBack(q: Queue, i: nat): Queue
    requires i < |q.flights|
  {
    q.(buf := q.flights[i] + q.buf, bufBytes := q.bufBytes + Sizes(q.flights[i]), flights := Without(q.flights, i))
  }

  function TrimMemory(q: Queue, budget: nat): Queue
    requires !q.hasStore
  {
    var k := TrimPrefix(q.buf, budget);
    q.(buf := q.buf[k..], bufBytes := Sizes(q.buf[k..]), memDropped := q.memDropped + k,
       overBudget := q.overBudget + multiset(q.buf[..k]))
  }

  function DropOldest(q: Queue, target: int): Queue
    requires q.hasStore
  {
    var k := FreeingPrefix(EventsOf(q.rows), target, DROP_SCAN_LIMIT);
    q.(rows := q.rows[k..], uncounting := q.uncounting + [k],
       overBudget := q.overBudget + multiset(EventsOf(q.rows[..k])))
  }

  // The counter update may fail; the rows are gone either way.
  function CountDrops(q: Queue, i: nat, ok: bool): Queue
    requires i < |q.uncounting|
  {
    var n := q.uncounting[i];
    var rest := q.(uncounting := Without(q.uncounting, i));
    if ok && q.hasStore then rest.(persisted := q.persisted + n) else rest.(miscounted := q.miscounted + n)
  }

  function ResetDropped(q: Queue, ok: bool): Queue {
    if ok && q.hasStore then q.(memDropped := 0, persisted := 0, cleared := q.cleared + q.memDropped + q.persisted)
    else q.(memDropped := 0, cleared := q.cleared + q.memDropped)
  }

  function Expire(q: Queue, cutoff: int): Queue
    requires q.hasStore
  {
    q.(rows := Filter(q.rows, Fresh(cutoff)), expired := q.expired + multiset(EventsOf(Filter(q.rows, Stale(cutoff)))))
  }

  function Purge(q: Queue, n: nat): Queue
    requires q.hasStore
  {
    q.(rows := Filter(q.rows, Above(n)), acked := q.acked + multiset(EventsOf(Filter(q.rows, AtMost(n)))))
  }

  function Discard(q: Queue): Queue {
    q.(hasStore := false, buf := [], bufBytes := 0, rows := [], persisted := 0, cleared := q.cleared + q.persisted,
       discarded := q.discarded + multiset(q.buf) + multiset(EventsOf(q.rows)))
  }

  // The process dies and starts again, on the same database if it had one.
  function Restart(q: Queue): Queue {
    q.(buf := [], bufBytes := 0, flights := [], memDropped := 0, uncounting := [],
       crashed := q.crashed + multiset(q.buf) + InFlight(q.flights),
       cleared := q.cleared + q.memDropped, miscounted := q.miscounted + Sum(q.uncounting))
  }

  // -------------------------------------------------------------------- invariant

  ghost predicate Conserved(q: Queue) {
    q.accepted ==
      multiset(q.buf) + InFlight(q.flights) + multiset(EventsOf(q.rows))
      + q.acked + q.expired + q.overBudget + q.discarded + q.crashed
  }

  ghost predicate Accounted(q: Queue) {
    |q.overBudget| == q.memDropped + q.persisted + Sum(q.uncounting) + q.cleared + q.miscounted
  }

  ghost predicate QueueInv(q: Queue) {
    && TableOk(q.rows, q.last)
    && (if q.hasStore then q.memDropped == 0 else q.rows == [] && q.persisted == 0)
    && q.bufBytes == Sizes(q.buf)
    && Conserved(q)
    && Accounted(q)
  }

  // ------------------------------------------------------------------ preservation

  lemma {:induction false} InFlightWithout(flights: seq<seq<Event>>, i: nat)
    requires i < |flights|
    ensures InFlight(flights) == multiset(flights[i]) + InFlight(Without(flights, i))
  {
    if i == 0 {
      assert Without(flights, 0) == flights[1..];
    } else {
      InFlightWithout(flights[1..], i - 1);
      assert Without(flights, i)[1..] == Without(flights[1..], i - 1);
    }
  }

  lemma {:induction false} InFlightAppend(flights: seq<seq<Event>>, batch: seq<Event>)
    ensures InFlight(flights + [batch]) == InFlight(flights) + multiset(batch)
  {
    if flights == [] {
      assert flights + [batch] == [batch];
    } else {
      InFlightAppend(flights[1..], batch);
      assert (flights + [batch])[1..] == flights[1..] + [batch];
    }
  }

  lemma {:induction false} SumWithout(ns: seq<nat>, i: nat)
    requires i < |ns|
    ensures Sum(ns) == ns[i] + Sum(Without(ns, i))
  {
    if i == 0 {
      assert Without(ns, 0) == ns[1..];
    } else {
      SumWithout(ns[1..], i - 1);
      assert Without(ns, i)[1..] == Without(ns[1..], i - 1);
    }
  }

  lemma {:induction false} SumAppend(ns: seq<nat>, n: nat)
    ensures Sum(ns + [n]) == Sum(ns) + n
  {
    if ns == [] {
      assert ns + [n] == [n];
    } else {
      SumAppend(ns[1..], n);
      assert (ns + [n])[1..] == ns[1..] + [n];
    }
  }

  lemma EventsCons(r: Row, rows: seq<Row>)
    ensures multiset(EventsOf([r] + rows)) == multiset{r.event} + multiset(EventsOf(rows))
  {
    assert EventsOf([r] + rows) == [r.event] + EventsOf(rows);
  }

  lemma {:induction false} EventsPartition(rows: seq<Row>, keep: Row -> bool, drop: Row -> bool)
    requires forall r :: keep(r) != drop(r)
    ensures multiset(EventsOf(Filter(rows, keep))) + multiset(EventsOf(Filter(rows, drop))) == multiset(EventsOf(rows))
  {
    if rows != [] {
      EventsPartition(rows[1..], keep, drop);
      assert rows == [rows[0]] + rows[1..];
      EventsCons(rows[0], rows[1..]);
      EventsCons(rows[0], Filter(rows[1..], if keep(rows[0]) then keep else drop));
    }
  }

  lemma SendKeeps(q: Queue, e: Event)
    requires QueueInv(q)
    ensures QueueInv(Send(q, e))
  {
    SizesAppend(q.buf, [e]);
  }

  lemma TakeBatchKeeps(q: Queue)
    requires QueueInv(q) && q.hasStore && q.buf != []
    ensures QueueInv(TakeBatch(q))
  {
    InFlightAppend(q.flights, q.buf);
  }

  lemma CommitStored(q: Queue, i: nat)
    requires QueueInv(q) && q.hasStore && i < |q.flights|
    ensures QueueInv(CommitBatch(q, i))
  {
    InFlightWithout(q.flights, i);
    AppendTableOk(q.rows, q.last, q.flights[i]);
    EventsAppend(q.rows, q.last, q.flights[i]);
  }

  lemma EventsAppend(rows: seq<Row>, last: nat, batch: seq<Event>)
    ensures multiset(EventsOf(rows + Numbered(batch, last))) == multiset(EventsOf(rows)) + multiset(batch)
  {
    assert EventsOf(rows + Numbered(batch, last)) == EventsOf(rows) + batch;
  }

  lemma CommitDiscarded(q: Queue, i: nat)
    requires QueueInv(q) && !q.hasStore && i < |q.flights|
    ensures QueueInv(CommitBatch(q, i))
  {
    InFlightWithout(q.flights, i);
  }

  lemma CommitBatchKeeps(q: Queue, i: nat)
    requires QueueInv(q) && i < |q.flights|
    ensures QueueInv(CommitBatch(q, i))
  {
    if q.hasStore { CommitStored(q, i); } else { CommitDiscarded(q, i); }
  }

  lemma ResetKeeps(q: Queue, ok: bool)
    requires QueueInv(q)
    ensures QueueInv(ResetDropped(q, ok))
  {
  }

  lemma DiscardKeeps(q: Queue)
    requires QueueInv(q)
    ensures QueueInv(Discard(q))
  {
  }

  lemma RestartKeeps(q: Queue)
    requires QueueInv(q)
    ensures QueueInv(Restart(q))
  {
  }

  lemma PutBackKeeps(q: Queue, i: nat)
    requires QueueInv(q) && i < |q.flights|
    ensures QueueInv(PutBack(q, i))
  {
    InFlightWithout(q.flights, i);
    SizesAppend(q.flights[i], q.buf);
  }

  lemma TrimMemoryKeeps(q: Queue, budget: nat)
    requires QueueInv(q) && !q.hasStore
    ensures QueueInv(TrimMemory(q, budget))
  {
    var k := TrimPrefix(q.buf, budget);
    assert q.buf == q.buf[..k] + q.buf[k..];
  }

  lemma DropOldestKeeps(q: Queue, target: int)
    requires QueueInv(q) && q.hasStore
    ensures QueueInv(DropOldest(q, target))
  {
    var k := FreeingPrefix(EventsOf(q.rows), target, DROP_SCAN_LIMIT);
    SumAppend(q.uncounting, k);
    assert EventsOf(q.rows) == EventsOf(q.rows[..k]) + EventsOf(q.rows[k..]);
  }

  lemma CountDropsKeeps(q: Queue, i: nat, ok: bool)
    requires QueueInv(q) && i < |q.uncounting|
    ensures QueueInv(CountDrops(q, i, ok))
  {
    SumWithout(q.uncounting, i);
  }

  lemma ExpireKeeps(q: Queue, cutoff: int)
    requires QueueInv(q) && q.hasStore
    ensures QueueInv(Expire(q, cutoff))
  {
    FilterAscending(q.rows, Fresh(cutoff));
    EventsPartition(q.rows, Fresh(cutoff), Stale(cutoff));
  }

  lemma PurgeKeeps(q: Queue, n: nat)
    requires QueueInv(q) && q.hasStore
    ensures QueueInv(Purge(q, n))
  {
    FilterAscending(q.rows, Above(n));
    EventsPartition(q.rows, Above(n), AtMost(n));
  }
}
