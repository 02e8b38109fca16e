/**
 The agent's outbound queue as the source runs it: a memory buffer, a database table
 and the cursors, changed in place by one caller at a time. `SpoolProtocol` covers the
 interleavings of these operations, and `SpoolRefinement` shows that each is a sequence of
 the protocol's steps.
 */
module AgentSpool {
  import opened Options
  import opened SpoolTable

  // How a delete goes: done; refused by the database; or done, but with an error while
  // counting the rows or giving pages back.
  datatype Fault = Fine | Rejected | Late

  // What an expiry leaves in the table.
  function Kept(rows: seq<Row>, cutoff: int, fault: Fault): seq<Row> {
    if fault.Rejected? then rows else Filter(rows, Fresh(cutoff))
  }

  class SpoolStore {
    var rows: seq<Row>
    var last: nat
    var droppedSinceConnect: nat

    ghost predicate Valid()
      reads this
    {
      TableOk(rows, last)
    }

    constructor ()
      ensures Valid() && rows == [] && last == 0 && droppedSinceConnect == 0
    {
      rows, last, droppedSinceConnect := [], 0, 0;
    }

    /** One transaction. `failAt` names the statement that fails: an insert when it is an
        index of the batch, the commit when it is the batch length, nothing beyond that. */
    method Append(events: seq<Event>, failAt: nat) returns (key: Option<nat>)
      requires Valid()
      modifies this
      ensures Valid() && droppedSinceConnect == old(droppedSinceConnect)
      ensures key.None? <==> events != [] && failAt <= |events|
      ensures key.None? ==> rows == old(rows) && last == old(last)
      ensures key.Some? ==> rows == old(rows) + Numbered(events, old(last)) && last == old(last) + |events|
      ensures key.Some? && events != [] ==> key.value == last
    {
      if events == [] {
        assert rows + Numbered(events, last) == rows;
        return Some(0);
      }
      var table, next := rows, last;
      for i := 0 to |events|
        invariant next == last + i && table == rows + Numbered(events[..i], last)
        invariant rows == old(rows) && last == old(last)
        invariant i <= failAt
        invariant droppedSinceConnect == old(droppedSinceConnect)
      {
        if i == failAt {
          return None;
        }
        assert Numbered(events[..i + 1], last) == Numbered(events[..i], last) + [Row(next + 1, events[i])];
        next := next + 1;
        table := table + [Row(next, events[i])];
      }
      if failAt == |events| {
        return None;
      }
      assert events[..|events|] == events;
      AppendTableOk(rows, last, events);
      rows, last := table, next;
      key := Some(next);
    }

    method ReadFrom(after: nat, limit: nat) returns (batch: seq<Row>)
      requires Valid()
      ensures batch == Batch(rows, after, limit)
    {
      batch := [];
      for i := 0 to |rows|
        invariant batch == Batch(rows[..i], after, limit)
      {
        assert rows[..i + 1] == rows[..i] + [rows[i]];
        BatchSnoc(rows[..i], rows[i], after, limit);
        if after < rows[i].num && |batch| < limit {
          batch := batch + [rows[i]];
        }
      }
      assert rows[..|rows|] == rows;
    }

    // The next drain batch, placed by the position of the cursor in the table.
    method ReadNext(after: nat, ghost at: nat) returns (batch: seq<Row>)
      requires Valid() && SplitsAt(rows, after, at)
      ensures batch <= rows[at..]
      ensures |batch| == 200 || (|batch| < 200 && at + |batch| == |rows|)
    {
      batch := ReadFrom(after, DRAIN_BATCH);
      BatchAtSplit(rows, after, at, DRAIN_BATCH);
    }

    method DeleteUpTo(n: nat, fault: Fault) returns (ok: bool, count: nat)
      requires Valid()
      modifies this
      ensures Valid() && last == old(last) && droppedSinceConnect == old(droppedSinceConnect)
      ensures rows == if fault.Rejected? then old(rows) else RowsAbove(old(rows), n)
      ensures ok <==> fault.Fine?
      ensures ok ==> count == CountUpTo(old(rows), n)
    {
      if fault.Rejected? {
        return false, 0;
      }
      FilterAscending(rows, Above(n));
      count := CountUpTo(rows, n);
      rows := RowsAbove(rows, n);
      ok := fault.Fine?;
    }

    method DeleteOlderThan(cutoff: int, fault: Fault) returns (ok: bool, count: nat)
      requires Valid()
      modifies this
      ensures Valid() && last == old(last) && droppedSinceConnect == old(droppedSinceConnect)
      ensures rows == Kept(old(rows), cutoff, fault)
      ensures ok <==> fault.Fine?
      ensures ok ==> count == |old(rows)| - |rows|
    {
      if fault.Rejected? {
        return false, 0;
      }
      FilterAscending(rows, Fresh(cutoff));
      var kept := Filter(rows, Fresh(cutoff));
      count := |rows| - |kept|;
      rows := kept;
      ok := fault.Fine?;
    }

    /** Drops exactly the shortest prefix of rows whose sizes reach the target, or the
        scanned prefix when they fall short. */
    method DeleteOldestBytes(target: int, fault: Fault) returns (ok: bool, count: nat)
      requires Valid()
      modifies this
      ensures Valid() && last == old(last) && droppedSinceConnect == old(droppedSinceConnect)
      ensures ok <==> fault.Fine?
      ensures fault.Rejected? ==> rows == old(rows)
      ensures !fault.Rejected? ==>
        && ShortestFreeing(EventsOf(old(rows)), target, DROP_SCAN_LIMIT, count)
        && count == FreeingPrefix(EventsOf(old(rows)), target, DROP_SCAN_LIMIT)
        && rows == old(rows)[count..]
    {
      if fault.Rejected? {
        return false, 0;
      }
      var key, k := OldestBytesKey(rows, last, target, DROP_SCAN_LIMIT);
      count := k;
      if key.Some? {
        SuffixAboveRow(rows, k);
        rows := RowsAbove(rows, key.value);
      }
      ok := fault.Fine?;
    }

    method AddDropped(n: nat, fails: bool) returns (ok: bool)
      requires Valid()
      modifies this`droppedSinceConnect
      ensures ok == !fails
      ensures droppedSinceConnect == old(droppedSinceConnect) + if ok then n else 0
    {
      ok := !fails;
      if ok {
        droppedSinceConnect := droppedSinceConnect + n;
      }
    }

    method ResetDroppedSinceConnect(fails: bool)
      modifies this`droppedSinceConnect
      ensures droppedSinceConnect == if fails then old(droppedSinceConnect) else 0
    {
      if !fails {
        droppedSinceConnect := 0;
      }
    }
  }

  /** A live stream. It takes `room` more messages and then fails. */
  class Sink {
    var sent: seq<nat>
    var room: nat

    method Send(n: nat) returns (ok: bool)
      modifies this
      ensures ok == (old(room) > 0)
      ensures sent == if ok then old(sent) + [n] else old(sent)
    {
      ok := room > 0;
      if ok {
        sent, room := sent + [n], room - 1;
      }
    }
  }

  // The row numbers a drain puts on the stream: the readable rows, in order.
  function ReadableNums(rows: seq<Row>): seq<nat> {
    if rows == [] then []
    else
      var last := rows[|rows| - 1];
      ReadableNums(rows[..|rows| - 1]) + (if last.event.readable then [last.num] else [])
  }

  lemma {:induction false} ReadableNumsConcat(a: seq<Row>, b: seq<Row>)
    ensures ReadableNums(a + b) == ReadableNums(a) + ReadableNums(b)
  {
    if b == [] {
      assert a + b == a;
    } else {
      var b' := b[..|b| - 1];
      ReadableNumsConcat(a, b');
      assert (a + b)[..|a + b| - 1] == a + b';
    }
  }

  lemma ReadableNumsSplit(rows: seq<Row>, from: nat, mid: nat, to: nat)
    requires from <= mid <= to <= |rows|
    ensures ReadableNums(rows[from..to]) == ReadableNums(rows[from..mid]) + ReadableNums(rows[mid..to])
  {
    assert rows[from..to] == rows[from..mid] + rows[mid..to];
    ReadableNumsConcat(rows[from..mid], rows[mid..to]);
  }

  // What dealing with one more row means for the cursor and for what was sent.
  lemma PassedRow(rows: seq<Row>, last: nat, from: nat, to: nat)
    requires TableOk(rows, last) && from <= to < |rows|
    ensures rows[to].num <= last && SplitsAt(rows, rows[to].num, to + 1)
    ensures forall n: nat :: SplitsAt(rows, n, to) ==> n < rows[to].num
    ensures ReadableNums(rows[from..to + 1]) == ReadableNums(rows[from..to]) + if rows[to].event.readable then [rows[to].num] else []
  {
    assert rows[to] in rows;
    var passed := rows[from..to + 1];
    assert passed[..|passed| - 1] == rows[from..to] && passed[|passed| - 1] == rows[to];
  }

  // What a flush leaves in the table, read as events, is the old queue minus a prefix.
  lemma FlushKeepsOrder(rows: seq<Row>, last: nat, queued: seq<Event>, n: nat)
    requires n <= |rows| + |queued|
    ensures EventsOf((rows + Numbered(queued, last))[n..]) == (EventsOf(rows) + queued)[n..]
  {
  }

  const FLUSH_EVENTS: nat := 500

  // What a flush meets in the database: the statement at which its transaction fails, the
  // size it then reads (none if the read fails), and how the delete and the count go.
  datatype Disk = Disk(failAt: nat, size: Option<nat>, drop: Fault, countFails: bool)

  // The delete target for a database of this size.
  function DiskTarget(size: nat, maxDisk: nat): int {
    if size <= maxDisk then 0 else size - maxDisk + maxDisk / 10
  }

  // Whether the budget deletes at all.
  predicate OverBudget(disk: Disk, maxDisk: nat) {
    maxDisk > 0 && disk.size.Some? && disk.size.value > maxDisk && !disk.drop.Rejected?
  }

  // How many of the stored events it deletes, how many of those it counts, and whether it
  // reports success.
  function BudgetDrops(disk: Disk, maxDisk: nat, events: seq<Event>): (n: nat)
    ensures n <= |events|
  {
    if OverBudget(disk, maxDisk) then FreeingPrefix(events, DiskTarget(disk.size.value, maxDisk), DROP_SCAN_LIMIT) else 0
  }

  function BudgetCounts(disk: Disk, maxDisk: nat, events: seq<Event>): nat {
    if disk.drop.Fine? && !disk.countFails then BudgetDrops(disk, maxDisk, events) else 0
  }

  predicate BudgetOk(disk: Disk, maxDisk: nat, events: seq<Event>) {
    || maxDisk == 0
    || (disk.size.Some? && disk.size.value <= maxDisk)
    || (disk.size.Some? && disk.drop.Fine? && (disk.countFails ==> BudgetDrops(disk, maxDisk, events) == 0))
  }

  // What a spool holds: the buffer and, if there is a store, its table and counter.
  datatype Table = Table(rows: seq<Row>, last: nat, persisted: nat)

  datatype Content = Content(buf: seq<Event>, memDropped: nat, table: Option<Table>)

  function Stored(t: Table, buf: seq<Event>): seq<Row> { t.rows + Numbered(buf, t.last) }

  // The table after a batch was stored and the disk budget enforced.
  function Enforced(t: Table, buf: seq<Event>, maxDisk: nat, disk: Disk): Table {
    var rows := Stored(t, buf);
    Table(rows[BudgetDrops(disk, maxDisk, EventsOf(rows))..], t.last + |buf|,
          t.persisted + BudgetCounts(disk, maxDisk, EventsOf(rows)))
  }

  /** What a flush makes of a spool. Nothing changes if the transaction fails; a spool without
      a table only loses its oldest events; and once a batch is stored, an error of the disk
      budget does not bring it back. */
  function Flushed(c: Content, maxMemory: nat, maxDisk: nat, disk: Disk): Content {
    if c.buf == [] then c
    else if c.table.None? then
      var k := TrimPrefix(c.buf, maxMemory);
      c.(buf := c.buf[k..], memDropped := c.memDropped + k)
    else if disk.failAt <= |c.buf| then c
    else c.(buf := [], table := Some(Enforced(c.table.value, c.buf, maxDisk, disk)))
  }

  predicate FlushOk(c: Content, maxDisk: nat, disk: Disk) {
    || c.buf == [] || c.table.None?
    || (disk.failAt > |c.buf| && BudgetOk(disk, maxDisk, EventsOf(Stored(c.table.value, c.buf))))
  }

  /** A flush reports an error exactly when it has something to store and the transaction
      fails, or the database is on a budget and its size cannot be read, or it is over budget
      and the delete reports an error, or it is and dropped rows cannot be counted. */
  lemma FlushErrors(t: Table, buf: seq<Event>, memDropped: nat, maxDisk: nat, disk: Disk)
    ensures var rows := t.rows + Numbered(buf, t.last);
      var over := maxDisk > 0 && disk.size.Some? && disk.size.value > maxDisk;
      !FlushOk(Content(buf, memDropped, Some(t)), maxDisk, disk) <==>
        buf != [] &&
        (|| disk.failAt <= |buf|
         || (maxDisk > 0 && disk.size.None?)
         || (over && !disk.drop.Fine?)
         || (over && disk.countFails
             && FreeingPrefix(EventsOf(rows), disk.size.value - maxDisk + maxDisk / 10, 50000) > 0))
  {
  }

  /** After a flush that stored its batch, table and counter: the budget removes, of the old
      rows and the new, the fewest oldest whose sizes reach the excess and a tenth of the
      budget, or the first fifty thousand, or all; and counts them unless a delete or count
      error came between. */
  lemma FlushStores(c: Content, maxMemory: nat, maxDisk: nat, disk: Disk) returns (k: nat)
    requires c.table.Some? && c.buf != [] && disk.failAt > |c.buf|
    ensures var t, c' := c.table.value, Flushed(c, maxMemory, maxDisk, disk);
      var rows := t.rows + Numbered(c.buf, t.last);
      && c'.buf == [] && c'.memDropped == c.memDropped && c'.table.Some? && c'.table.value.last == t.last + |c.buf|
      && k <= |rows| && c'.table.value.rows == rows[k..]
      && c'.table.value.persisted - t.persisted == (if disk.drop.Fine? && !disk.countFails then k else 0)
      && (if maxDisk > 0 && disk.size.Some? && disk.size.value > maxDisk && !disk.drop.Rejected?
          then ShortestFreeing(EventsOf(rows), disk.size.value - maxDisk + maxDisk / 10, 50000, k) else k == 0)
  {
    var rows := Stored(c.table.value, c.buf);
    k := BudgetDrops(disk, maxDisk, EventsOf(rows));
    if OverBudget(disk, maxDisk) {
      FreeingPrefixIsShortest(EventsOf(rows), DiskTarget(disk.size.value, maxDisk), DROP_SCAN_LIMIT);
    }
  }

  // A failed transaction changes nothing; without a table the oldest events go, counted.
  lemma FlushElse(c: Content, maxMemory: nat, maxDisk: nat, disk: Disk)
    ensures c.buf == [] || (c.table.Some? && disk.failAt <= |c.buf|) ==> Flushed(c, maxMemory, maxDisk, disk) == c
    ensures c.buf != [] && c.table.None? ==>
      var c' := Flushed(c, maxMemory, maxDisk, disk);
      var k := c'.memDropped - c.memDropped;
      && c'.table.None? && 0 <= k <= |c.buf| && c'.buf == c.buf[k..]
      && (Sizes(c'.buf) <= maxMemory || c'.buf == []) && (forall j :: 0 <= j < k ==> Sizes(c.buf[j..]) > maxMemory)
  {
    TrimPrefixIsShortest(c.buf, maxMemory);
  }

  // What an expiry makes of a spool; without a retention window it does nothing.
  function Expired(c: Content, maxAge: int, now: int, fault: Fault): Content {
    if maxAge <= 0 || c.table.None? then c
    else c.(table := Some(c.table.value.(rows := Kept(c.table.value.rows, now - maxAge, fault))))
  }

  // How a drain ends.
  datatype Outcome = Finished | Cancelled | Failed

  // Where the cursor is after the rows from..to.
  function CursorAfter(rows: seq<Row>, cursor: nat, from: nat, to: nat): nat
    requires from <= to <= |rows|
  {
    if from == to then cursor else rows[to - 1].num
  }

  class Spool {
    const maxMemory: nat
    const maxDisk: nat
    var store: SpoolStore?
    var buf: seq<Event>
    var bufBytes: int
    var sink: Sink?
    var sendSeq: nat
    var ackSeq: nat
    var dropped: nat
    var pausedUntil: int

    ghost predicate Valid()
      reads this, store
    {
      && bufBytes == Sizes(buf)
      && ackSeq <= sendSeq
      && (store != null ==> store.Valid() && sendSeq <= store.last)
    }

    function View(): Content
      reads this, store
    {
      Content(buf, dropped, if store == null then None else Some(Table(store.rows, store.last, store.droppedSinceConnect)))
    }

    constructor (maxMemory: nat, maxDisk: nat, store: SpoolStore?)
      requires store != null ==> store.Valid()
      ensures Valid() && buf == [] && this.store == store && sendSeq == ackSeq == dropped == 0 && sink == null
    {
      this.maxMemory, this.maxDisk, this.store := maxMemory, maxDisk, store;
      buf, bufBytes, sink, sendSeq, ackSeq, dropped, pausedUntil := [], 0, null, 0, 0, 0, 0;
    }

    /** Drops the shortest prefix that brings the buffer within budget. */
    method TrimMemory() returns (count: nat)
      requires Valid()
      modifies this`buf, this`bufBytes, this`dropped
      ensures Valid()
      ensures count == TrimPrefix(old(buf), maxMemory)
      ensures buf == old(buf)[count..] && dropped == old(dropped) + count
    {
      count := 0;
      while bufBytes > maxMemory && |buf| > 0
        invariant count <= |old(buf)| && buf == old(buf)[count..] && bufBytes == Sizes(buf)
        invariant TrimPrefix(old(buf), maxMemory) == count + TrimPrefix(buf, maxMemory)
        invariant ackSeq == old(ackSeq) && sendSeq == old(sendSeq) && store == old(store) && dropped == old(dropped)
        decreases |buf|
      {
        assert buf[1..] == old(buf)[count + 1..];
        bufBytes := bufBytes - buf[0].size;
        buf := buf[1..];
        count := count + 1;
      }
      dropped := dropped + count;
    }

    method Flush(disk: Disk) returns (ok: bool)
      requires Valid()
      modifies this`buf, this`bufBytes, this`dropped, store
      ensures Valid() && store == old(store)
      ensures View() == Flushed(old(View()), maxMemory, maxDisk, disk)
      ensures ok <==> FlushOk(old(View()), maxDisk, disk)
    {
      if buf == [] {
        return true;
      }
      if store == null {
        var _ := TrimMemory();
        return true;
      }
      var batch := buf;
      buf, bufBytes := [], 0;
      var key := store.Append(batch, disk.failAt);
      if key.None? {
        assert batch + buf == batch;
        buf, bufBytes := batch + buf, bufBytes + Sizes(batch);
        return false;
      }
      ok := EnforceDiskBudget(disk);
    }

    /** Over budget, the oldest rows go: as few as free the excess and a tenth of the budget, or
        the first fifty thousand, or all. */
    method EnforceDiskBudget(disk: Disk) returns (ok: bool)
      requires Valid() && store != null
      modifies store
      ensures Valid() && store.last == old(store.last)
      ensures store.rows == old(store.rows)[BudgetDrops(disk, maxDisk, EventsOf(old(store.rows)))..]
      ensures store.droppedSinceConnect == old(store.droppedSinceConnect) + BudgetCounts(disk, maxDisk, EventsOf(old(store.rows)))
      ensures ok <==> BudgetOk(disk, maxDisk, EventsOf(old(store.rows)))
      ensures maxDisk > 0 && disk.size.Some? && disk.size.value > maxDisk && !disk.drop.Rejected? ==>
        var rows, excess := old(store.rows), disk.size.value - maxDisk;
        var k := |rows| - |store.rows|;
        && (k == |rows| || k == 50000 || Sizes(EventsOf(rows)[..k]) >= excess + maxDisk / 10)
        && (forall j :: 0 <= j < k ==> Sizes(EventsOf(rows)[..j]) < excess + maxDisk / 10)
      ensures maxDisk == 0 || disk.size.None? || disk.size.value <= maxDisk || disk.drop.Rejected? ==>
        store.rows == old(store.rows)
    {
      if maxDisk == 0 {
        return true;
      }
      if disk.size.None? {
        return false;
      }
      if disk.size.value <= maxDisk {
        return true;
      }
      var done, n := store.DeleteOldestBytes(disk.size.value - maxDisk + maxDisk / 10, disk.drop);
      if !done {
        return false;
      }
      if n == 0 {
        return true;
      }
      ok := store.AddDropped(n, disk.countFails);
    }

    /** Queues one event, flushing at once when the memory budget is reached. Whatever
        happens to the flush, table and buffer afterwards hold the old queue and the new
        event, in the order they came, less a prefix of `lost` events; each lost event is
        counted unless the database failed to. A flush is asked for in the background
        exactly when the buffer is long without being over budget. */
    method Enqueue(e: Event, disk: Disk) returns (ok: bool, flushAsked: bool, ghost lost: nat)
      requires Valid()
      modifies this`buf, this`bufBytes, this`dropped, store
      ensures Valid() && store == old(store)
      ensures flushAsked <==> old(bufBytes) + e.size < maxMemory && |old(buf)| + 1 >= 500
      ensures View() ==
        if old(bufBytes) + e.size >= maxMemory then Flushed(old(View()).(buf := old(buf) + [e]), maxMemory, maxDisk, disk)
        else old(View()).(buf := old(buf) + [e])
      ensures store != null ==>
        && lost <= |old(store.rows)| + |old(buf)| + 1
        && EventsOf(store.rows) + buf == (EventsOf(old(store.rows)) + old(buf) + [e])[lost..]
        && store.droppedSinceConnect - old(store.droppedSinceConnect) == if disk.drop.Fine? && !disk.countFails then lost else 0
      ensures store == null ==>
        && lost <= |old(buf)| + 1
        && buf == (old(buf) + [e])[lost..]
        && dropped == old(dropped) + lost
    {
      SizesAppend(buf, [e]);
      buf := buf + [e];
      bufBytes := bufBytes + e.size;
      ok, flushAsked, lost := true, false, 0;
      assert store != null ==> EventsOf(store.rows) + buf == EventsOf(old(store.rows)) + old(buf) + [e];
      if bufBytes >= maxMemory {
        ok, lost := FlushInOrder(disk);
      } else if |buf| >= FLUSH_EVENTS {
        flushAsked := true;
      }
    }

    // A flush, seen as what it does to the queue of events: it drops a prefix.
    method FlushInOrder(disk: Disk) returns (ok: bool, ghost lost: nat)
      requires Valid()
      modifies this`buf, this`bufBytes, this`dropped, store
      ensures Valid() && store == old(store)
      ensures View() == Flushed(old(View()), maxMemory, maxDisk, disk)
      ensures store != null ==>
        && lost <= |old(store.rows)| + |old(buf)|
        && EventsOf(store.rows) + buf == (EventsOf(old(store.rows)) + old(buf))[lost..]
        && store.droppedSinceConnect - old(store.droppedSinceConnect) == if disk.drop.Fine? && !disk.countFails then lost else 0
      ensures store == null ==> lost <= |old(buf)| && buf == old(buf)[lost..] && dropped == old(dropped) + lost
    {
      ghost var before := if store == null then [] else store.rows;
      ghost var last := if store == null then 0 else store.last;
      ghost var queued := buf;
      ok := Flush(disk);
      if store == null {
        lost := |queued| - |buf|;
      } else if queued != [] && disk.failAt > |queued| {
        lost := BudgetDrops(disk, maxDisk, EventsOf(before + Numbered(queued, last)));
        FlushKeepsOrder(before, last, queued, lost);
      } else {
        lost := 0;
      }
    }

    method ResetDropped(fails: bool)
      requires Valid()
      modifies this`dropped, store
      ensures Valid() && dropped == 0
      ensures store != null ==> store.rows == old(store.rows) && store.last == old(store.last)
      ensures store != null ==> store.droppedSinceConnect == if fails then old(store.droppedSinceConnect) else 0
    {
      dropped := 0;
      if store != null {
        store.ResetDroppedSinceConnect(fails);
      }
    }

    method PurgeExpired(maxAge: int, now: int, fault: Fault) returns (ok: bool)
      requires Valid()
      modifies store
      ensures Valid() && View() == Expired(old(View()), maxAge, now, fault)
      ensures ok <==> maxAge <= 0 || store == null || fault.Fine?
    {
      if maxAge <= 0 || store == null {
        return true;
      }
      var done, count := store.DeleteOlderThan(now - maxAge, fault);
      return done;
    }

    // Times are in milliseconds; without a delay of its own a refusal pauses for a second.
    method RateLimited(retryAfter: int, now: int)
      requires Valid()
      modifies this`sendSeq, this`pausedUntil
      ensures Valid() && sendSeq == ackSeq
      ensures pausedUntil == now + (if retryAfter <= 0 then 1000 else retryAfter)
    {
      var delay := if retryAfter <= 0 then 1000 else retryAfter;
      sendSeq := ackSeq;
      pausedUntil := now + delay;
    }

    method Attach(stream: Sink)
      requires Valid()
      modifies this`sink, this`pausedUntil, this`sendSeq
      ensures Valid() && sink == stream && sendSeq == ackSeq && pausedUntil == 0
    {
      sink, pausedUntil := stream, 0;
      sendSeq := ackSeq;
    }

    method Detach()
      requires Valid()
      modifies this`sink
      ensures Valid() && sink == null
    {
      sink := null;
    }

    /** An ack deletes nothing above the send cursor, whatever number it names, and every row
        it newly covers. A delete that fails leaves the cursor moved. */
    method Acked(n: nat, fault: Fault)
      requires Valid()
      modifies this`ackSeq, store
      ensures Valid() && store == old(store)
      ensures ackSeq == AckTarget(n, sendSeq, old(ackSeq))
      ensures store != null ==> store.last == old(store.last)
      ensures store != null ==>
        && store.droppedSinceConnect == old(store.droppedSinceConnect)
        && store.rows == if fault.Rejected? || ackSeq == old(ackSeq) then old(store.rows) else RowsAbove(old(store.rows), ackSeq)
      ensures store != null && !fault.Rejected? && n <= 0x7fff_ffff_ffff_ffff ==>
        && (forall r :: r in store.rows ==> r.num <= old(ackSeq) || n < r.num || sendSeq < r.num)
        && (forall r :: r in old(store.rows) && (n < r.num || sendSeq < r.num) ==> r in store.rows)
    {
      if n > MAX_INT64 {
        return;
      }
      var purgeTo := n;
      if purgeTo > sendSeq {
        purgeTo := sendSeq;
      }
      if purgeTo <= ackSeq {
        return;
      }
      ackSeq := purgeTo;
      if store == null {
        return;
      }
      var _, _ := store.DeleteUpTo(purgeTo, fault);
    }

    // An unreadable row is passed over.
    method SendRow(row: Row) returns (ok: bool)
      requires sink != null
      modifies this`sendSeq, sink
      ensures sendSeq == if ok then row.num else old(sendSeq)
      ensures sink.sent == old(sink.sent) + if ok && row.event.readable then [row.num] else []
    {
      if row.event.readable {
        ok := sink.Send(row.num);
        if !ok {
          return;
        }
      }
      sendSeq := row.num;
      ok := true;
    }

    /** Sends one batch read from the table, row by row, moving the cursor behind each. The
        context is cancelled after `patience` more rows. */
    method SendBatch(batch: seq<Row>, patience: nat, ghost from: nat) returns (end: Outcome, ghost to: nat)
      requires Valid() && store != null && sink != null
      requires SplitsAt(store.rows, sendSeq, from) && batch <= store.rows[from..]
      modifies this`sendSeq, sink
      ensures Valid() && old(sendSeq) <= sendSeq
      ensures SplitsAt(store.rows, sendSeq, to) && from <= to <= from + |batch|
      ensures sendSeq == CursorAfter(store.rows, old(sendSeq), from, to)
      ensures sink.sent == old(sink.sent) + ReadableNums(store.rows[from..to])
      ensures end.Finished? ==> to == from + |batch|
    {
      ghost var rows := store.rows;
      to := from;
      for i := 0 to |batch|
        invariant to == from + i && SplitsAt(rows, sendSeq, to)
        invariant old(sendSeq) <= sendSeq <= store.last
        invariant sendSeq == CursorAfter(rows, old(sendSeq), from, to)
        invariant sink.sent == old(sink.sent) + ReadableNums(rows[from..to])
      {
        if i == patience {
          return Cancelled, to;
        }
        assert batch[i] == rows[to];
        PassedRow(rows, store.last, from, to);
        var ok := SendRow(batch[i]);
        if !ok {
          return Failed, to;
        }
        to := to + 1;
      }
      end := Finished;
    }

    // Batch after batch. `goodReads` more reads of the table succeed.
    method DrainRows(patience: nat, goodReads: nat, ghost from: nat) returns (end: Outcome, ghost to: nat)
      requires Valid() && store != null && sink != null
      requires SplitsAt(store.rows, sendSeq, from)
      modifies this`sendSeq, sink
      ensures Valid() && old(sendSeq) <= sendSeq
      ensures SplitsAt(store.rows, sendSeq, to) && from <= to
      ensures sendSeq == CursorAfter(store.rows, old(sendSeq), from, to)
      ensures sink.sent == old(sink.sent) + ReadableNums(store.rows[from..to])
      ensures end.Finished? ==> to == |store.rows|
    {
      ghost var rows := store.rows;
      var calm: nat, good: nat := patience, goodReads;
      to := from;
      while true
        invariant Valid() && old(sendSeq) <= sendSeq
        invariant SplitsAt(rows, sendSeq, to) && from <= to
        invariant sendSeq == CursorAfter(rows, old(sendSeq), from, to)
        invariant sink.sent == old(sink.sent) + ReadableNums(rows[from..to])
        decreases |rows| - to
      {
        if good == 0 {
          return Failed, to;
        }
        ghost var mid := to;
        var size;
        size, end, to := DrainBatch(calm, mid);
        ReadableNumsSplit(rows, from, mid, to);
        if size == 0 || !end.Finished? {
          return;
        }
        calm, good := if calm < size then 0 else calm - size, good - 1;
      }
    }

    // One read of the table and what it yields.
    method DrainBatch(patience: nat, ghost from: nat) returns (size: nat, end: Outcome, ghost to: nat)
      requires Valid() && store != null && sink != null
      requires SplitsAt(store.rows, sendSeq, from)
      modifies this`sendSeq, sink
      ensures Valid() && old(sendSeq) <= sendSeq
      ensures SplitsAt(store.rows, sendSeq, to) && from <= to
      ensures sendSeq == CursorAfter(store.rows, old(sendSeq), from, to)
      ensures sink.sent == old(sink.sent) + ReadableNums(store.rows[from..to])
      ensures size == 0 ==> to == |store.rows|
      ensures end.Finished? ==> to == from + size
    {
      var batch := store.ReadNext(sendSeq, from);
      size, end, to := |batch|, Finished, from;
      assert store.rows[from..from] == [];
      if size > 0 {
        end, to := SendBatch(batch, patience, from);
      }
    }

    /** One drain: after the flush, the stream receives exactly the readable rows between
        the old and the new cursor, in row order; a drain that finishes with a stream that
        is neither missing nor paused leaves nothing above the cursor. */
    method DrainOnce(now: int, disk: Disk, patience: nat, goodReads: nat) returns (end: Outcome, ghost from: nat, ghost to: nat)
      requires Valid()
      modifies this`buf, this`bufBytes, this`dropped, this`sendSeq, store, sink
      ensures Valid() && store == old(store) && sink == old(sink)
      ensures View() == Flushed(old(View()), maxMemory, maxDisk, disk)
      ensures store == null || sink == null || now < pausedUntil ==>
        sendSeq == old(sendSeq) && (sink != null ==> sink.sent == old(sink.sent))
      ensures store != null && sink != null ==>
        && old(sendSeq) <= sendSeq && from <= to
        && SplitsAt(store.rows, old(sendSeq), from) && SplitsAt(store.rows, sendSeq, to)
        && sendSeq == CursorAfter(store.rows, old(sendSeq), from, to)
        && sink.sent == old(sink.sent) + ReadableNums(store.rows[from..to])
        && (end.Finished? && pausedUntil <= now ==> to == |store.rows|)
    {
      from, to := 0, 0;
      var ok := Flush(disk);
      if store != null {
        from := SplitPoint(store.rows, sendSeq);
        to := from;
        assert store.rows[from..to] == [];
      }
      if !ok {
        return Failed, from, to;
      }
      if store == null || sink == null || now < pausedUntil {
        return Finished, from, to;
      }
      end, to := DrainRows(patience, goodReads, from);
    }

    method Discard()
      requires Valid()
      modifies this`store, this`buf, this`bufBytes
      ensures Valid() && store == null && buf == []
    {
      store, buf, bufBytes := null, [], 0;
    }
  }
}
